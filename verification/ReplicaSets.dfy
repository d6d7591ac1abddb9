/** ReplicaSets as the Advanced Deployment controller sees them, the orders it
    sorts them by, and sums over lists of them. */
module ReplicaSets {
  import opened Arithmetic
  import opened Sorting

  /** `spec` is the requested size, `available` the last reported status. The
      two annotations hold the deployment size, and that size plus surge, at the
      moment the set was last scaled. */
  datatype ReplicaSet = ReplicaSet(
    name: string,
    created: int,
    revision: Option<int>,
    spec: nat,
    available: nat,
    desiredReplicas: Option<int>,
    maxReplicas: Option<int>)

  predicate StringBefore(a: string, b: string) {
    b != [] && (a == [] || a[0] < b[0] || (a[0] == b[0] && StringBefore(a[1..], b[1..])))
  }

  /** Oldest first, names break ties. */
  predicate CreatedBefore(a: ReplicaSet, b: ReplicaSet) {
    if a.created == b.created then StringBefore(a.name, b.name) else a.created < b.created
  }

  /** Highest revision first; a missing or unreadable revision falls back to age. */
  predicate RevisionAfter(a: ReplicaSet, b: ReplicaSet) {
    if a.revision.None? || b.revision.None? || a.revision == b.revision then CreatedBefore(a, b)
    else a.revision.value > b.revision.value
  }

  /** Largest first, older sets first among equals. */
  predicate LargerOrOlder(a: ReplicaSet, b: ReplicaSet) {
    if a.spec == b.spec then CreatedBefore(a, b) else a.spec > b.spec
  }

  /** Largest first, newer sets first among equals. */
  predicate LargerOrNewer(a: ReplicaSet, b: ReplicaSet) {
    if a.spec == b.spec then CreatedBefore(b, a) else a.spec > b.spec
  }

  function SpecOf(r: ReplicaSet): nat {
    r.spec
  }

  function AvailableOf(r: ReplicaSet): nat {
    r.available
  }

  /** Available pods left once a set deleted its unavailable pods first. */
  function RunningOf(r: ReplicaSet): nat {
    if r.available < r.spec then r.available else r.spec
  }

  function Sum(weight: ReplicaSet -> nat, rs: seq<ReplicaSet>): nat {
    if rs == [] then 0 else weight(rs[0]) + Sum(weight, rs[1..])
  }

  function Size(rs: seq<ReplicaSet>): nat {
    Sum(SpecOf, rs)
  }

  function Active(rs: seq<ReplicaSet>): seq<ReplicaSet> {
    if rs == [] then []
    else if rs[0].spec > 0 then [rs[0]] + Active(rs[1..])
    else Active(rs[1..])
  }

  function Idle(rs: seq<ReplicaSet>): seq<ReplicaSet> {
    if rs == [] then []
    else if rs[0].spec > 0 then Idle(rs[1..])
    else [rs[0]] + Idle(rs[1..])
  }

  lemma {:induction false} SumConcat(weight: ReplicaSet -> nat, s: seq<ReplicaSet>, t: seq<ReplicaSet>)
    ensures Sum(weight, s + t) == Sum(weight, s) + Sum(weight, t)
  {
    if s == [] {
      assert s + t == t;
    } else {
      assert (s + t)[1..] == s[1..] + t;
      SumConcat(weight, s[1..], t);
    }
  }

  lemma {:induction false} SizeOfPrefix(rs: seq<ReplicaSet>, i: nat)
    requires 0 < i <= |rs|
    ensures Size(rs[..i]) == rs[0].spec + Size(rs[1..][..i - 1])
  {
    assert rs[..i] == [rs[0]] + rs[1..][..i - 1];
    assert Sum(SpecOf, rs[..i]) == SpecOf(rs[..i][0]) + Sum(SpecOf, rs[..i][1..]);
  }

  lemma {:induction false} SumExtract(weight: ReplicaSet -> nat, s: seq<ReplicaSet>, i: nat)
    requires i < |s|
    ensures Sum(weight, s) == weight(s[i]) + Sum(weight, s[..i] + s[i + 1..])
  {
    assert s == s[..i] + ([s[i]] + s[i + 1..]);
    SumConcat(weight, s[..i], [s[i]] + s[i + 1..]);
    SumConcat(weight, s[..i], s[i + 1..]);
  }

  lemma RemoveSame<T>(s: seq<T>, t: seq<T>, i: nat)
    requires s != [] && multiset(s) == multiset(t) && i < |t| && t[i] == s[0]
    ensures multiset(s[1..]) == multiset(t[..i] + t[i + 1..])
  {
    assert s == [s[0]] + s[1..];
    assert t == t[..i] + [t[i]] + t[i + 1..];
    assert multiset(s[1..]) == multiset(s) - multiset{s[0]};
    assert multiset(t[..i] + t[i + 1..]) == multiset(t) - multiset{t[i]};
  }

  /** Sums do not depend on the order of the list. */
  lemma {:induction false} SumPermute(weight: ReplicaSet -> nat, s: seq<ReplicaSet>, t: seq<ReplicaSet>)
    requires multiset(s) == multiset(t)
    ensures Sum(weight, s) == Sum(weight, t)
    decreases |s|
  {
    if s == [] {
      assert |multiset(t)| == 0;
    } else {
      assert s[0] in multiset(t);
      var i :| 0 <= i < |t| && t[i] == s[0];
      RemoveSame(s, t, i);
      SumPermute(weight, s[1..], t[..i] + t[i + 1..]);
      SumExtract(weight, t, i);
    }
  }

  lemma FirstToEither<T>(x: T, rest: seq<T>, s: seq<T>, t: seq<T>)
    requires multiset(s + t) == multiset(rest)
    ensures multiset([x] + s + t) == multiset([x] + rest) == multiset(s + ([x] + t))
  {
  }

  lemma {:induction false} ActiveIdleSplit(rs: seq<ReplicaSet>)
    ensures multiset(Active(rs) + Idle(rs)) == multiset(rs)
    ensures Size(Idle(rs)) == 0
    ensures forall r :: r in Active(rs) ==> r.spec > 0
  {
    if rs != [] {
      ActiveIdleSplit(rs[1..]);
      FirstToEither(rs[0], rs[1..], Active(rs[1..]), Idle(rs[1..]));
      assert rs == [rs[0]] + rs[1..];
    }
  }

  lemma {:induction false} ActiveMembers(rs: seq<ReplicaSet>)
    ensures forall r :: r in Active(rs) + Idle(rs) <==> r in rs
  {
    ActiveIdleSplit(rs);
    forall r
      ensures r in Active(rs) + Idle(rs) <==> r in rs
    {
      assert r in Active(rs) + Idle(rs) <==> r in multiset(Active(rs) + Idle(rs));
      assert r in rs <==> r in multiset(rs);
    }
  }

  lemma {:induction false} SumActive(weight: ReplicaSet -> nat, rs: seq<ReplicaSet>)
    ensures Sum(weight, rs) == Sum(weight, Active(rs)) + Sum(weight, Idle(rs))
  {
    ActiveIdleSplit(rs);
    SumPermute(weight, Active(rs) + Idle(rs), rs);
    SumConcat(weight, Active(rs), Idle(rs));
  }

  /** Status never reports more pods than were asked for. */
  predicate StatusCurrent(rs: seq<ReplicaSet>) {
    forall r :: r in rs ==> r.available <= r.spec
  }

  lemma {:induction false} RunningIsAvailable(rs: seq<ReplicaSet>)
    requires StatusCurrent(rs)
    ensures Sum(RunningOf, rs) == Sum(AvailableOf, rs)
  {
    if rs != [] {
      assert StatusCurrent(rs[1..]);
      RunningIsAvailable(rs[1..]);
    }
  }

  lemma {:induction false} StringBeforeAsymmetric(a: string, b: string)
    requires StringBefore(a, b)
    ensures !StringBefore(b, a)
    decreases |a|
  {
    if a != [] && a[0] == b[0] {
      StringBeforeAsymmetric(a[1..], b[1..]);
    }
  }

  lemma {:induction false} CreatedBeforeAsymmetric(a: ReplicaSet, b: ReplicaSet)
    requires CreatedBefore(a, b)
    ensures !CreatedBefore(b, a)
  {
    if a.created == b.created {
      StringBeforeAsymmetric(a.name, b.name);
    }
  }

  lemma {:induction false} StringBeforeTotal(a: string, b: string)
    ensures a == b || StringBefore(a, b) || StringBefore(b, a)
    decreases |a|
  {
    if a != [] && b != [] && a[0] == b[0] {
      StringBeforeTotal(a[1..], b[1..]);
      assert a == [a[0]] + a[1..] && b == [b[0]] + b[1..];
    }
  }

  lemma {:induction false} StringNotBeforeTransitive(a: string, b: string, c: string)
    requires !StringBefore(b, a) && !StringBefore(c, b)
    ensures !StringBefore(c, a)
    decreases |a|
  {
    if a != [] && b != [] && c != [] && a[0] == b[0] == c[0] {
      StringNotBeforeTransitive(a[1..], b[1..], c[1..]);
    }
  }

  lemma {:induction false} CreatedBeforeTotal(a: ReplicaSet, b: ReplicaSet)
    requires a.name != b.name
    ensures CreatedBefore(a, b) || CreatedBefore(b, a)
  {
    StringBeforeTotal(a.name, b.name);
  }

  lemma {:induction false} CreatedBeforeOrders()
    ensures Orders(CreatedBefore)
  {
    forall x, y | CreatedBefore(x, y)
      ensures !CreatedBefore(y, x)
    {
      CreatedBeforeAsymmetric(x, y);
    }
    forall x, y, z | !CreatedBefore(y, x) && !CreatedBefore(z, y)
      ensures !CreatedBefore(z, x)
    {
      if x.created == y.created == z.created {
        StringNotBeforeTransitive(x.name, y.name, z.name);
      }
    }
  }

  /** `GetReplicaCountForReplicaSets`. */
  method CountReplicas(rs: seq<ReplicaSet>) returns (total: nat)
    ensures total == Size(rs)
  {
    total := 0;
    for i := 0 to |rs|
      invariant total == Size(rs[..i])
    {
      total := total + rs[i].spec;
      SumConcat(SpecOf, rs[..i], [rs[i]]);
      assert rs[..i + 1] == rs[..i] + [rs[i]];
    }
    assert rs[..|rs|] == rs;
  }

  /** `GetAvailableReplicaCountForReplicaSets`. */
  method CountAvailable(rs: seq<ReplicaSet>) returns (total: nat)
    ensures total == Sum(AvailableOf, rs)
  {
    total := 0;
    for i := 0 to |rs|
      invariant total == Sum(AvailableOf, rs[..i])
    {
      total := total + rs[i].available;
      SumConcat(AvailableOf, rs[..i], [rs[i]]);
      assert rs[..i + 1] == rs[..i] + [rs[i]];
    }
    assert rs[..|rs|] == rs;
  }
}
