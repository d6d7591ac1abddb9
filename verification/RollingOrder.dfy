/** Which old set a phase of the rolling update takes pods from, or gives pods to. */
module RollingOrder {
  import opened Arithmetic
  import opened Sorting
  import opened ReplicaSets
  import opened RollingUpdate
  import opened RollingProperties

  /** All of its pods are available, or it has none. */
  predicate IsClean(r: ReplicaSet) {
    r.spec == 0 || r.spec == r.available
  }

  lemma {:induction false} CleanupKeeps(rs: seq<ReplicaSet>, budget: int, q: Quota, broken: set<string>, i: nat)
    requires i < |rs|
    ensures var c := Cleanup(rs, budget, q, broken).sets;
      |c| == |rs| && c[i].name == rs[i].name && c[i].created == rs[i].created && c[i].available == rs[i].available
  {
    DrainShape(rs, budget, q, broken);
    if budget > 0 && i > 0 {
      CleanupKeeps(rs[1..], budget, q, broken, i - 1);
      CleanupKeeps(rs[1..], budget - Min(budget, rs[0].spec - rs[0].available), q, broken, i - 1);
    }
  }

  lemma {:induction false} CleanupInOrder(rs: seq<ReplicaSet>, budget: int, q: Quota, broken: set<string>, i: nat, j: nat)
    requires i < j < |rs|
    ensures var c := Cleanup(rs, budget, q, broken).sets;
      |c| == |rs| && (c[j] != rs[j] ==> IsClean(c[i]))
  {
    DrainShape(rs, budget, q, broken);
    if budget > 0 {
      var r := rs[0];
      if IsClean(r) {
        if i > 0 {
          CleanupInOrder(rs[1..], budget, q, broken, i - 1, j - 1);
        }
      } else if !(r.spec < r.available || r.name in broken) {
        var k := Min(budget, r.spec - r.available);
        if i > 0 {
          CleanupInOrder(rs[1..], budget - k, q, broken, i - 1, j - 1);
        } else if k == budget {
          assert Cleanup(rs[1..], 0, q, broken).sets == rs[1..];
        }
      }
    }
  }

  /** Clean-up goes from the oldest set on: a set loses pods only when no older one has an
      unavailable pod left. */
  lemma {:induction false} OldestCleanedFirst(olds: seq<ReplicaSet>, budget: int, q: Quota, broken: set<string>, i: nat, j: nat)
    requires i < j < |olds|
    ensures var sorted := Sort(CreatedBefore, olds);
      var c := Cleanup(sorted, budget, q, broken).sets;
      && |c| == |olds|
      && sorted[i].created <= sorted[j].created
      && (c[j] != sorted[j] ==> IsClean(c[i]) && c[i].name == sorted[i].name)
  {
    CreatedBeforeOrders();
    SortSorted(CreatedBefore, olds);
    hide Cleanup, Sort, StringBefore;
    var sorted := Sort(CreatedBefore, olds);
    CleanupKeeps(sorted, budget, q, broken, i);
    CleanupInOrder(sorted, budget, q, broken, i, j);
    assert !CreatedBefore(sorted[j], sorted[i]);
  }

  lemma {:induction false} ScaleDownInOrder(rs: seq<ReplicaSet>, budget: int, q: Quota, broken: set<string>, i: nat, j: nat)
    requires i < j < |rs|
    ensures var c := ScaleDown(rs, budget, q, broken).sets;
      |c| == |rs| && (c[j] != rs[j] ==> c[i].spec == 0)
  {
    DrainShape(rs, budget, q, broken);
    if budget > 0 && (rs[0].spec == 0 || rs[0].name !in broken) {
      var k := Min(rs[0].spec, budget);
      if i > 0 {
        ScaleDownInOrder(rs[1..], budget - k, q, broken, i - 1, j - 1);
      } else if k == budget {
        assert ScaleDown(rs[1..], 0, q, broken).sets == rs[1..];
      }
    }
  }

  /** The order of sets that all have a revision. */
  predicate HigherRevision(a: ReplicaSet, b: ReplicaSet) {
    var x := if a.revision.Some? then a.revision.value else 0;
    var y := if b.revision.Some? then b.revision.value else 0;
    if x == y then CreatedBefore(a, b) else x > y
  }

  lemma {:induction false} HigherRevisionOrders()
    ensures Orders(HigherRevision)
  {
    CreatedBeforeOrders();
    hide CreatedBefore;
  }

  /** The scale-down over the old sets alone goes from the highest revision on: a set loses
      pods only when all of higher revisions have none left. */
  lemma {:induction false} HighestRevisionScaledFirst(f: Fleet, q: Quota, spare: int, broken: set<string>, i: nat, j: nat)
    requires i < j < |f.olds| && forall r :: r in f.olds ==> r.revision.Some?
    ensures var sorted := Sort(RevisionAfter, f.olds);
      var after := ScaleDownSeparate(f, q, spare, broken).0.olds;
      && |after| == |f.olds|
      && sorted[i].revision.Some? && sorted[j].revision.Some? && sorted[i].revision.value >= sorted[j].revision.value
      && (after[j] != sorted[j] ==> after[i].spec == 0)
  {
    var sorted := Sort(RevisionAfter, f.olds);
    SortAgrees(RevisionAfter, HigherRevision, f.olds);
    HigherRevisionOrders();
    SortSorted(HigherRevision, f.olds);
    SortKeepsMembers(RevisionAfter, f.olds);
    hide Sort, CreatedBefore, ScaleDown, Sum;
    assert sorted[i] in sorted && sorted[j] in sorted;
    assert !HigherRevision(sorted[j], sorted[i]);
    ScaleDownInOrder(sorted, Min(spare, ScaleDownLimit(sorted, f.newRS.spec, q)), q, broken, i, j);
  }

  /** What is missing is given to one set that no active one is larger than, and that is
      not younger than any as large; all others stay. */
  lemma {:induction false} LargestScaledUp(active: seq<ReplicaSet>, count: int, q: Quota)
    requires count > 0 && active != []
    ensures var sorted, after := Sort(LargerOrOlder, active), ScaleUpOlds(active, count, q, {});
      && |after| == |active| && after[1..] == sorted[1..]
      && after[0].name == sorted[0].name && after[0].spec == sorted[0].spec + count
      && forall r :: r in active ==> r.spec < sorted[0].spec || (r.spec == sorted[0].spec && sorted[0].created <= r.created)
  {
    LargerOrOlderOrders();
    SortSorted(LargerOrOlder, active);
    SortKeepsMembers(LargerOrOlder, active);
    hide Sort, StringBefore;
    var sorted := Sort(LargerOrOlder, active);
    forall r | r in active
      ensures r.spec < sorted[0].spec || (r.spec == sorted[0].spec && sorted[0].created <= r.created)
    {
      assert r in sorted;
      var k :| 0 <= k < |sorted| && sorted[k] == r;
      assert k > 0 ==> !LargerOrOlder(sorted[k], sorted[0]);
    }
  }

  lemma {:induction false} LargerOrOlderOrders()
    ensures Orders(LargerOrOlder)
  {
    CreatedBeforeOrders();
    hide CreatedBefore;
  }

  /* ---- refused patches ---- */

  lemma {:induction false} CleanupRefused(rs: seq<ReplicaSet>, budget: int, q: Quota, broken: set<string>, r: ReplicaSet)
    requires r in rs && r.name in broken
    ensures r in Cleanup(rs, budget, q, broken).sets
  {
    if budget > 0 && r != rs[0] {
      CleanupRefused(rs[1..], budget, q, broken, r);
      CleanupRefused(rs[1..], budget - Min(budget, rs[0].spec - rs[0].available), q, broken, r);
    }
  }

  lemma {:induction false} ScaleDownRefused(rs: seq<ReplicaSet>, budget: int, q: Quota, broken: set<string>, r: ReplicaSet)
    requires r in rs && r.name in broken
    ensures r in ScaleDown(rs, budget, q, broken).sets
  {
    if budget > 0 && r != rs[0] {
      ScaleDownRefused(rs[1..], budget, q, broken, r);
      ScaleDownRefused(rs[1..], budget - Min(rs[0].spec, budget), q, broken, r);
    }
  }

  predicate In(f: Fleet, r: ReplicaSet) {
    r == f.newRS || r in f.olds
  }

  lemma {:induction false} InReassembled(all: seq<ReplicaSet>, i: nat, r: ReplicaSet)
    requires i < |all| && r in all
    ensures In(Reassembled(all, i), r)
  {
    assert all == all[..i] + [all[i]] + all[i + 1..];
  }

  lemma {:induction false} ScaleDownOldsRefused(f: Fleet, q: Quota, shared: bool, broken: set<string>, r: ReplicaSet)
    requires In(f, r) && r.name in broken
    ensures In(ScaleDownOlds(f, q, shared, broken).0, r)
  {
    hide Sort, Sum, ScaleDown, ByAge, Reassembled;
    var spare := Sum(AvailableOf, f.olds) + f.newRS.available - (q.replicas - q.unavailable);
    var sorted := Sort(RevisionAfter, f.olds);
    SortKeepsMembers(RevisionAfter, f.olds);
    if !shared {
      if r in sorted {
        ScaleDownRefused(sorted, Min(spare, ScaleDownLimit(sorted, f.newRS.spec, q)), q, broken, r);
      }
    } else {
      var all := ByAge(f.newRS, sorted);
      var listed, rest := all[..|f.olds|], all[|f.olds|..];
      assert all == listed + rest;
      assert r in all by { ByAgeHas(f.newRS, sorted, r); }
      var budget := Min(spare, ScaleDownLimit(listed, f.newRS.spec, q));
      DrainShape(listed, budget, q, broken);
      if r in listed {
        ScaleDownRefused(listed, budget, q, broken, r);
      }
      InReassembled(ScaleDown(listed, budget, q, broken).sets + rest, Position(all, f.newRS), r);
    }
  }

  lemma {:induction false} ByAgeHas(newRS: ReplicaSet, olds: seq<ReplicaSet>, r: ReplicaSet)
    requires r == newRS || r in olds
    ensures r in ByAge(newRS, olds)
  {
    SortKeepsMembers(CreatedBefore, olds + [newRS]);
  }

  lemma {:induction false} ShrinkOldsRefused(f: Fleet, q: Quota, budget: int, shared: bool, broken: set<string>, r: ReplicaSet)
    requires In(f, r) && r.name in broken
    ensures In(ShrinkOlds(f, q, budget, shared, broken), r)
  {
    hide Sort, Sum, Cleanup, ScaleDownOlds, Active, Idle;
    var sorted := Sort(CreatedBefore, Active(f.olds));
    var cleaned := Cleanup(sorted, budget, q, broken);
    SortKeepsMembers(CreatedBefore, Active(f.olds));
    ActiveMembers(f.olds);
    if r in f.olds {
      assert r in Active(f.olds) + Idle(f.olds);
      if r in sorted {
        CleanupRefused(sorted, budget, q, broken, r);
      }
    }
    if In(f.(olds := cleaned.sets), r) {
      ScaleDownOldsRefused(f.(olds := cleaned.sets), q, shared, broken, r);
    }
  }

  /** A set whose patch is refused is the same after the round, and so is every one if the
      new set's is refused when it was due. */
  lemma {:induction false} RefusedStaysInRound(f: Fleet, q: Quota, shared: bool, broken: set<string>, r: ReplicaSet)
    requires In(f, r) && r.name in broken
    ensures In(Round(f, q, shared, broken), r)
    ensures ReconcileNew(f, q, {}).scaled && f.newRS.name in broken ==> Round(f, q, shared, broken) == f
  {
    hide Sort, Sum, NewReplicas, ShrinkOlds, Active, Idle, Size;
    var active := Active(f.olds);
    ActiveMembers(f.olds);
    SortKeepsMembers(LargerOrOlder, active);
    if r in f.olds {
      assert r in active + Idle(f.olds);
    }
    var limit := ScaleDownLimit(active, f.newRS.spec, q);
    ScaleUpRefused(active, -limit, q, broken, r);
    var spare := Size(f.olds) + f.newRS.spec - (q.replicas - q.unavailable) - (f.newRS.spec - f.newRS.available);
    ShrinkOldsRefused(f, q, Min(spare, limit), shared, broken, r);
  }

  lemma {:induction false} ScaleUpRefused(active: seq<ReplicaSet>, count: int, q: Quota, broken: set<string>, r: ReplicaSet)
    requires r.name in broken
    ensures r in active ==> r in ScaleUpOlds(active, count, q, broken)
  {
    hide Sort;
    SortKeepsMembers(LargerOrOlder, active);
    if r in active && count > 0 {
      var sorted := Sort(LargerOrOlder, active);
      assert sorted == [sorted[0]] + sorted[1..];
    }
  }
}
