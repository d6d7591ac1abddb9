/** Sorting by a comparison function, as `sort.Sort` with a `Less` method does. */
module Sorting {

  function Insert<T>(less: (T, T) -> bool, x: T, s: seq<T>): (r: seq<T>)
    ensures |r| == |s| + 1
  {
    if s == [] then [x]
    else if !less(s[0], x) then [x] + s
    else [s[0]] + Insert(less, x, s[1..])
  }

  function Sort<T>(less: (T, T) -> bool, s: seq<T>): (r: seq<T>)
    ensures |r| == |s|
  {
    if s == [] then [] else Insert(less, s[0], Sort(less, s[1..]))
  }

  lemma {:induction false} InsertPermutes<T>(less: (T, T) -> bool, x: T, s: seq<T>)
    ensures multiset(Insert(less, x, s)) == multiset(s) + multiset{x}
  {
    if s != [] && less(s[0], x) {
      InsertPermutes(less, x, s[1..]);
      assert s == [s[0]] + s[1..];
    }
  }

  lemma {:induction false} SortPermutes<T>(less: (T, T) -> bool, s: seq<T>)
    ensures multiset(Sort(less, s)) == multiset(s)
  {
    if s != [] {
      SortPermutes(less, s[1..]);
      InsertPermutes(less, s[0], Sort(less, s[1..]));
      assert s == [s[0]] + s[1..];
    }
  }

  lemma SortKeepsMembers<T>(less: (T, T) -> bool, s: seq<T>)
    ensures forall x :: x in Sort(less, s) <==> x in s
  {
    SortPermutes(less, s);
    forall x
      ensures x in Sort(less, s) <==> x in s
    {
      assert x in Sort(less, s) <==> x in multiset(Sort(less, s));
      assert x in s <==> x in multiset(s);
    }
  }

  /** An element that comes after every other one is sorted to the end. */
  lemma {:induction false} SortAppendGreatest<T>(less: (T, T) -> bool, s: seq<T>, last: T)
    requires forall x :: x in s ==> less(x, last) && !less(last, x)
    ensures Sort(less, s + [last]) == Sort(less, s) + [last]
  {
    if s == [] {
      assert s + [last] == [last];
      assert Sort(less, [last]) == Insert(less, last, Sort(less, [last][1..]));
    } else {
      assert (s + [last])[1..] == s[1..] + [last];
      SortAppendGreatest(less, s[1..], last);
      InsertBeforeGreatest(less, s[0], Sort(less, s[1..]), last);
    }
  }

  lemma {:induction false} InsertBeforeGreatest<T>(less: (T, T) -> bool, x: T, s: seq<T>, last: T)
    requires less(x, last) && !less(last, x)
    ensures Insert(less, x, s + [last]) == Insert(less, x, s) + [last]
  {
    if s == [] {
      assert s + [last] == [last];
      assert [x] + [last] == [x, last];
    } else if less(s[0], x) {
      assert (s + [last])[1..] == s[1..] + [last];
      InsertBeforeGreatest(less, x, s[1..], last);
    }
  }

  /** A strict order in which incomparability is transitive. */
  ghost predicate Orders<T(!new)>(less: (T, T) -> bool) {
    && (forall x, y :: less(x, y) ==> !less(y, x))
    && (forall x, y, z :: !less(y, x) && !less(z, y) ==> !less(z, x))
  }

  ghost predicate Sorted<T>(less: (T, T) -> bool, s: seq<T>) {
    forall i, j :: 0 <= i < j < |s| ==> !less(s[j], s[i])
  }

  lemma {:induction false} SortSorted<T(!new)>(less: (T, T) -> bool, s: seq<T>)
    requires Orders(less)
    ensures Sorted(less, Sort(less, s))
  {
    if s != [] {
      SortSorted(less, s[1..]);
      InsertSorted(less, s[0], Sort(less, s[1..]));
    }
  }

  lemma {:induction false} ConsSorted<T>(less: (T, T) -> bool, first: T, rest: seq<T>)
    requires Sorted(less, rest) && forall y :: y in rest ==> !less(y, first)
    ensures Sorted(less, [first] + rest)
  {
    var r := [first] + rest;
    forall i, j | 0 <= i < j < |r|
      ensures !less(r[j], r[i])
    {
      assert r[j] == rest[j - 1];
    }
  }

  lemma InsertMembers<T>(less: (T, T) -> bool, x: T, s: seq<T>)
    ensures forall y :: y in Insert(less, x, s) ==> y in s || y == x
  {
    InsertPermutes(less, x, s);
    forall y | y in Insert(less, x, s)
      ensures y in s || y == x
    {
      assert y in multiset(Insert(less, x, s));
    }
  }

  lemma {:induction false} InsertSorted<T(!new)>(less: (T, T) -> bool, x: T, s: seq<T>)
    requires Orders(less) && Sorted(less, s)
    ensures Sorted(less, Insert(less, x, s))
  {
    if s != [] {
      if less(s[0], x) {
        InsertSorted(less, x, s[1..]);
        InsertMembers(less, x, s[1..]);
        ConsSorted(less, s[0], Insert(less, x, s[1..]));
      } else {
        ConsSorted(less, x, s);
      }
    }
  }

  lemma {:induction false} SortKeepsSorted<T(!new)>(less: (T, T) -> bool, s: seq<T>)
    requires Sorted(less, s)
    ensures Sort(less, s) == s
  {
    if s != [] {
      SortKeepsSorted(less, s[1..]);
      assert s == [s[0]] + s[1..];
      if |s| > 1 {
        assert !less(s[1], s[0]);
      }
    }
  }

  function Reversed<T>(s: seq<T>): (r: seq<T>)
    ensures |r| == |s|
  {
    if s == [] then [] else Reversed(s[1..]) + [s[0]]
  }

  lemma {:induction false} SortReverses<T(!new)>(less: (T, T) -> bool, s: seq<T>)
    requires forall i, j :: 0 <= i < j < |s| ==> less(s[j], s[i])
    ensures Sort(less, s) == Reversed(s)
  {
    if s != [] {
      SortReverses(less, s[1..]);
      SortKeepsMembers(less, s[1..]);
      InsertLast(less, s[0], Sort(less, s[1..]));
    }
  }

  lemma {:induction false} InsertLast<T>(less: (T, T) -> bool, x: T, s: seq<T>)
    requires forall y :: y in s ==> less(y, x)
    ensures Insert(less, x, s) == s + [x]
  {
    if s != [] {
      assert less(s[0], x);
      InsertLast(less, x, s[1..]);
      assert s + [x] == [s[0]] + (s[1..] + [x]);
    }
  }

  lemma {:induction false} SortAppends<T>(less: (T, T) -> bool, x: T, s: seq<T>)
    requires forall y :: y in Sort(less, s) ==> less(y, x)
    ensures Sort(less, [x] + s) == Sort(less, s) + [x]
  {
    assert ([x] + s)[1..] == s;
    InsertLast(less, x, Sort(less, s));
  }

  lemma {:induction false} SortFour<T(!new)>(less: (T, T) -> bool, a: T, b: T, c: T, d: T)
    requires !less(b, a) && less(a, c) && less(b, c)
    requires less(a, d) && less(b, d) && less(c, d)
    ensures Sort(less, [d, c, a] + [b]) == [a, b, c, d]
  {
    hide Sort;
    SortKeepsSorted(less, [a, b]);
    SortAppends(less, c, [a, b]);
    SortAppends(less, d, [c] + [a, b]);
    assert [d, c, a] + [b] == [d] + ([c] + [a, b]);
    assert [a, b] + [c] + [d] == [a, b, c, d];
  }

  lemma {:induction false} SortedHeads<T(!new)>(less: (T, T) -> bool, s: seq<T>, t: seq<T>)
    requires Sorted(less, s) && Sorted(less, t) && s != [] && t != [] && s[0] in t && t[0] in s
    requires s[0] != t[0] ==> less(s[0], t[0]) || less(t[0], s[0])
    ensures s[0] == t[0]
  {
    var i :| 0 <= i < |t| && t[i] == s[0];
    var j :| 0 <= j < |s| && s[j] == t[0];
  }

  lemma {:induction false} TailsSame<T>(s: seq<T>, t: seq<T>)
    requires s != [] && t != [] && s[0] == t[0] && multiset(s) == multiset(t)
    ensures multiset(s[1..]) == multiset(t[1..])
  {
    assert s == [s[0]] + s[1..] && t == [t[0]] + t[1..];
    assert multiset(s[1..]) == multiset(s) - multiset{s[0]};
    assert multiset(t[1..]) == multiset(t) - multiset{t[0]};
  }

  lemma SameMembers<T>(s: seq<T>, t: seq<T>)
    requires multiset(s) == multiset(t)
    ensures |s| == |t| && forall x :: x in s <==> x in t
  {
    assert |s| == |multiset(s)| == |t|;
    forall x
      ensures x in s <==> x in t
    {
      assert x in s <==> x in multiset(s);
      assert x in t <==> x in multiset(t);
    }
  }

  /** Where any two different elements are ordered, a list has one sorted order. */
  lemma {:induction false} SortedUnique<T(!new)>(less: (T, T) -> bool, s: seq<T>, t: seq<T>)
    requires Sorted(less, s) && Sorted(less, t) && multiset(s) == multiset(t)
    requires forall x, y :: x in s && y in s && x != y ==> less(x, y) || less(y, x)
    ensures s == t
  {
    SameMembers(s, t);
    if s != [] {
      assert s[0] in s && t[0] in t;
      SortedHeads(less, s, t);
      TailsSame(s, t);
      SortedUnique(less, s[1..], t[1..]);
      assert s == [s[0]] + s[1..] && t == [t[0]] + t[1..];
    }
  }

  /** Comparisons that agree on the elements of a list sort it alike. */
  lemma {:induction false} SortAgrees<T(!new)>(less: (T, T) -> bool, less': (T, T) -> bool, s: seq<T>)
    requires forall x, y :: x in s && y in s ==> less(x, y) == less'(x, y)
    ensures Sort(less, s) == Sort(less', s)
  {
    if s != [] {
      SortAgrees(less, less', s[1..]);
      SortKeepsMembers(less, s[1..]);
      InsertAgrees(less, less', s[0], Sort(less, s[1..]));
    }
  }

  lemma {:induction false} InsertAgrees<T(!new)>(less: (T, T) -> bool, less': (T, T) -> bool, x: T, s: seq<T>)
    requires forall y :: y in s ==> less(y, x) == less'(y, x)
    ensures Insert(less, x, s) == Insert(less', x, s)
  {
    if s != [] {
      assert s[0] in s;
      InsertAgrees(less, less', x, s[1..]);
    }
  }
}
