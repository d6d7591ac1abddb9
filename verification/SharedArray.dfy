/** The array that `append(oldRSs, newRS)` may share with `oldRSs`: what a scale-down
    over it sees, what it takes from the new set, and when the old sets lose their share. */
module SharedArray {
  import opened Arithmetic
  import opened Sorting
  import opened ReplicaSets
  import opened RollingUpdate
  import opened RollingProperties

  lemma {:induction false} EmptySum(rs: seq<ReplicaSet>)
    ensures rs == [] ==> Size(rs) == 0
  {
  }

  lemma {:induction false} LastIsNewest(f: Fleet, all: seq<ReplicaSet>)
    requires Sorted(CreatedBefore, all) && |all| == |f.olds| + 1 && all[|f.olds|] == f.newRS
    requires multiset(all[..|f.olds|]) == multiset(f.olds)
    requires forall o :: o in f.olds ==> o.name != f.newRS.name
    ensures NewIsNewest(f)
  {
    var n := |f.olds|;
    forall o | o in f.olds
      ensures CreatedBefore(o, f.newRS)
    {
      assert o in multiset(all[..n]);
      var i :| 0 <= i < n && all[i] == o;
      assert !CreatedBefore(all[n], all[i]);
      CreatedBeforeTotal(o, f.newRS);
    }
  }

  /** The sorted list of all sets begins with exactly the old ones if and only if
      the new set is the newest; otherwise the scale-down loop meets the new set
      and misses an old one. Names are unique, as the API server guarantees. */
  lemma {:induction false} SharedListsOldsIff(f: Fleet)
    requires forall o :: o in f.olds ==> o.name != f.newRS.name
    ensures multiset(ByAge(f.newRS, f.olds)[..|f.olds|]) == multiset(f.olds) <==> NewIsNewest(f)
  {
    assert NewIsNewest(f) ==> forall o :: o in f.olds ==> CreatedBefore(o, f.newRS);
    hide NewIsNewest, Sorted, Orders, Sort;
    var n := |f.olds|;
    var all := ByAge(f.newRS, f.olds);
    var byAge := Sort(CreatedBefore, f.olds);
    SortPermutes(CreatedBefore, f.olds);
    ByAgePermutes(f.newRS, f.olds);
    if NewIsNewest(f) {
      NewestListedLast(f.newRS, f.olds);
      assert all[..n] == byAge;
    } else if multiset(all[..n]) == multiset(f.olds) {
      CreatedBeforeOrders();
      SortSorted(CreatedBefore, f.olds + [f.newRS]);
      assert all == all[..n] + [all[n]];
      assert multiset(all) == multiset(f.olds) + multiset{all[n]};
      assert all[n] in multiset(all) - multiset(f.olds);
      LastIsNewest(f, all);
    }
  }

  /** No patch is refused for a set that has pods, up to place `i`. */
  predicate Unbroken(rs: seq<ReplicaSet>, i: nat, broken: set<string>)
    requires i < |rs|
  {
    forall k :: 0 <= k <= i && rs[k].spec > 0 ==> rs[k].name !in broken
  }

  /** What the loop takes from the set at place `i`: what the budget leaves after all
      sets before it, unless a refused patch stops the loop first. */
  function Taken(rs: seq<ReplicaSet>, budget: int, i: nat, broken: set<string>): nat
    requires i < |rs|
  {
    if Unbroken(rs, i, broken) then Min(rs[i].spec, Max(0, budget - Size(rs[..i]))) else 0
  }

  lemma {:induction false} UnbrokenStep(rs: seq<ReplicaSet>, i: nat, broken: set<string>)
    requires 0 < i < |rs|
    ensures Unbroken(rs, i, broken) <==> (rs[0].spec == 0 || rs[0].name !in broken) && Unbroken(rs[1..], i - 1, broken)
  {
    assert forall k :: 0 < k <= i ==> rs[k] == rs[1..][k - 1];
    if Unbroken(rs[1..], i - 1, broken) && (rs[0].spec == 0 || rs[0].name !in broken) {
      forall k | 0 <= k <= i && rs[k].spec > 0
        ensures rs[k].name !in broken
      {
        if k > 0 {
          assert rs[1..][k - 1].name !in broken;
        }
      }
    }
  }

  lemma {:induction false} TakenStep(rs: seq<ReplicaSet>, budget: int, i: nat, broken: set<string>)
    requires 0 < i < |rs| && budget > 0 && (rs[0].spec == 0 || rs[0].name !in broken)
    ensures Taken(rs, budget, i, broken) == Taken(rs[1..], budget - Min(rs[0].spec, budget), i - 1, broken)
  {
    hide Sum, Unbroken;
    SizeOfPrefix(rs, i);
    UnbrokenStep(rs, i, broken);
  }

  lemma {:induction false} ScaleDownAt(rs: seq<ReplicaSet>, budget: int, q: Quota, broken: set<string>, i: nat)
    requires i < |rs|
    ensures |ScaleDown(rs, budget, q, broken).sets| == |rs|
    ensures ScaleDown(rs, budget, q, broken).sets[i].spec == rs[i].spec - Taken(rs, budget, i, broken)
  {
    hide Sum;
    DrainShape(rs, budget, q, broken);
    EmptySum(rs[..0]);
    if budget > 0 && (rs[0].spec == 0 || rs[0].name !in broken) && i > 0 {
      TakenStep(rs, budget, i, broken);
      ScaleDownAt(rs[1..], budget - Min(rs[0].spec, budget), q, broken, i - 1);
    }
  }

  /** What a scale-down over the shared array takes from the new set: if it is not the
      last by age, what the budget leaves after all older sets. */
  function LostByNew(f: Fleet, q: Quota, spare: int, broken: set<string>): nat {
    var all := ByAge(f.newRS, Sort(RevisionAfter, f.olds));
    var listed, i := all[..|f.olds|], Position(all, f.newRS);
    if i < |f.olds| then Taken(listed, Min(spare, ScaleDownLimit(listed, f.newRS.spec, q)), i, broken) else 0
  }

  lemma {:induction false} SharedLoses(f: Fleet, q: Quota, spare: int, broken: set<string>)
    ensures ScaleDownShared(f, q, spare, broken).0.newRS.spec == f.newRS.spec - LostByNew(f, q, spare, broken)
  {
    hide Sort, ScaleDown, Taken;
    var all := ByAge(f.newRS, Sort(RevisionAfter, f.olds));
    var listed, i := all[..|f.olds|], Position(all, f.newRS);
    var budget := Min(spare, ScaleDownLimit(listed, f.newRS.spec, q));
    DrainShape(listed, budget, q, broken);
    if i < |f.olds| {
      ScaleDownAt(listed, budget, q, broken, i);
    }
  }

  /** Over a shared array the new set loses pods if and only if an old set is younger,
      it has pods, the budget exceeds the pods of all older sets, and no patch is
      refused up to it. All of that is known before. */
  lemma {:induction false} SharedShrinksNewExactlyWhen(f: Fleet, q: Quota, spare: int, broken: set<string>)
    ensures var all := ByAge(f.newRS, Sort(RevisionAfter, f.olds));
      var listed, i := all[..|f.olds|], Position(all, f.newRS);
      ScaleDownShared(f, q, spare, broken).0.newRS.spec < f.newRS.spec <==>
        && i < |f.olds| && f.newRS.spec > 0
        && Min(spare, ScaleDownLimit(listed, f.newRS.spec, q)) > Size(all[..i])
        && Unbroken(listed, i, broken)
  {
    hide Sort, ScaleDownShared, Unbroken, Sum;
    var all := ByAge(f.newRS, Sort(RevisionAfter, f.olds));
    var i := Position(all, f.newRS);
    SharedLoses(f, q, spare, broken);
    if i < |f.olds| {
      assert all[..|f.olds|][..i] == all[..i];
    }
  }

  /** What is available beyond the minimum. */
  function Spare(f: Fleet, q: Quota): int {
    Sum(AvailableOf, f.olds) + f.newRS.available - (q.replicas - q.unavailable)
  }

  lemma {:induction false} ScaleDownOldsLoses(f: Fleet, q: Quota, shared: bool, broken: set<string>)
    ensures ScaleDownOlds(f, q, shared, broken).0.newRS.spec
            == f.newRS.spec - if Spare(f, q) > 0 && shared then LostByNew(f, q, Spare(f, q), broken) else 0
  {
    hide Sort, ScaleDownShared, LostByNew, Sum;
    SharedLoses(f, q, Spare(f, q), broken);
  }

  /** How much the first phase of a round may clean up. */
  function CleanupBudget(f: Fleet, q: Quota): int {
    Min(Size(f.olds) + f.newRS.available - (q.replicas - q.unavailable), ScaleDownLimit(Active(f.olds), f.newRS.spec, q))
  }

  function CleanedOlds(f: Fleet, q: Quota, broken: set<string>): Drained {
    Cleanup(Sort(CreatedBefore, Active(f.olds)), CleanupBudget(f, q), q, broken)
  }

  /** What the scale-down of a round starts from. */
  function Cleaned(f: Fleet, q: Quota, broken: set<string>): Fleet {
    f.(olds := CleanedOlds(f, q, broken).sets)
  }

  /** The round leaves the new set to itself, finds old pods beyond their share, and
      comes through the clean-up. */
  predicate ReachesScaleDown(f: Fleet, q: Quota, broken: set<string>) {
    var outcome := ReconcileNew(f, q, broken);
    && !outcome.scaled && !outcome.failed
    && Size(Active(f.olds)) > 0 && CleanupBudget(f, q) > 0
    && !CleanedOlds(f, q, broken).failed
  }

  /** What a whole round takes from the new set: what exceeds the deployment's size,
      or what the scale-down over a shared array takes. */
  function LostInRound(f: Fleet, q: Quota, shared: bool, broken: set<string>): int {
    if f.newRS.spec > q.replicas && f.newRS.name !in broken then f.newRS.spec - q.replicas
    else if shared && ReachesScaleDown(f, q, broken) then
      var g := Cleaned(f, q, broken);
      if Spare(g, q) > 0 then LostByNew(g, q, Spare(g, q), broken) else 0
    else 0
  }

  lemma {:induction false} ReconcileOldsLoses(f: Fleet, q: Quota, shared: bool, broken: set<string>)
    requires var outcome := ReconcileNew(f, q, broken); !outcome.scaled && !outcome.failed
    requires f.newRS.spec <= q.replicas
    ensures ReconcileOlds(f, q, shared, broken).newRS.spec == f.newRS.spec - LostInRound(f, q, shared, broken)
  {
    hide Sort, ScaleDownOlds, Sum, LostByNew, Cleanup, ScaleUpOlds, ReconcileNew;
    ScaleDownOldsLoses(Cleaned(f, q, broken), q, shared, broken);
  }

  /** A round takes pods from the new set if and only if it exceeds the deployment's
      size, or the scale-down of the old sets, over a shared array, takes them; and it
      loses exactly that many. */
  lemma {:induction false} RoundShrinksNewExactlyWhen(f: Fleet, q: Quota, shared: bool, broken: set<string>)
    ensures var g := Round(f, q, shared, broken);
      && (g.newRS.spec < f.newRS.spec <==> LostInRound(f, q, shared, broken) > 0)
      && (LostInRound(f, q, shared, broken) > 0 ==> g.newRS.spec == f.newRS.spec - LostInRound(f, q, shared, broken))
  {
    assert f.newRS.spec < q.replicas ==> NewReplicas(f, q) >= f.newRS.spec;
    hide Sort, Sum, LostByNew, Cleanup, NewReplicas;
    var outcome := ReconcileNew(f, q, broken);
    if !outcome.scaled && !outcome.failed {
      assert f.newRS.spec <= q.replicas;
      ReconcileOldsLoses(f, q, shared, broken);
    }
  }

  lemma {:induction false} SumOfThree(weight: ReplicaSet -> nat, a: ReplicaSet, b: ReplicaSet, c: ReplicaSet)
    ensures Sum(weight, [a, b, c]) == weight(a) + weight(b) + weight(c)
  {
    assert [a, b, c][1..] == [b, c] && [b, c][1..] == [c];
    assert Sum(weight, [c]) == weight(c);
    assert Sum(weight, [b, c]) == weight(b) + weight(c);
  }

  lemma {:induction false} ActiveOfThree(a: ReplicaSet, b: ReplicaSet, c: ReplicaSet)
    requires a.spec > 0 && b.spec > 0 && c.spec > 0
    ensures Active([a, b, c]) == [a, b, c] && Idle([a, b, c]) == []
  {
    assert [a, b, c][1..] == [b, c] && [b, c][1..] == [c];
    assert Active([c]) == [c] && Idle([c]) == [];
    assert Active([b, c]) == [b, c] && Idle([b, c]) == [];
  }

  lemma {:induction false} ReversedFour(a: ReplicaSet, b: ReplicaSet, c: ReplicaSet, d: ReplicaSet)
    ensures Reversed([a, b, c]) == [c, b, a] && Reversed([a, b, c, d]) == [d, c, b, a]
  {
    assert [a, b, c, d][1..] == [b, c, d] && [b, c, d][1..] == [c, d] && [a, b, c][1..] == [b, c];
    assert Reversed([c, d]) == [d, c] && Reversed([b, c]) == [c, b];
    assert Reversed([b, c, d]) == [d, c, b];
  }
}
