/** What the rolling update keeps: availability in every round, size bounds over
    whole runs, and convergence. */
module RollingProperties {
  import opened Arithmetic
  import opened Sorting
  import opened ReplicaSets
  import opened RollingUpdate

  function Total(f: Fleet): nat {
    Size(f.olds) + f.newRS.spec
  }

  /** Pods available after every set deleted its unavailable pods first. */
  function Running(f: Fleet): nat {
    Sum(RunningOf, f.olds) + RunningOf(f.newRS)
  }

  ghost predicate Current(f: Fleet) {
    StatusCurrent(f.olds) && StatusCurrent([f.newRS])
  }

  /** Same sets, none larger than before. */
  ghost predicate Shrunk(rs: seq<ReplicaSet>, rs': seq<ReplicaSet>) {
    && |rs| == |rs'|
    && forall i :: 0 <= i < |rs| ==>
         && rs'[i].spec <= rs[i].spec
         && rs'[i].name == rs[i].name
         && rs'[i].created == rs[i].created
         && rs'[i].available == rs[i].available
  }

  lemma {:induction false} ShrunkCons(r: ReplicaSet, r': ReplicaSet, rs: seq<ReplicaSet>, rs': seq<ReplicaSet>)
    requires Shrunk([r], [r']) && Shrunk(rs, rs')
    ensures Shrunk([r] + rs, [r'] + rs')
  {
    assert [r][0] == r && [r'][0] == r';
  }

  lemma {:induction false} ShrunkSelf(rs: seq<ReplicaSet>)
    ensures Shrunk(rs, rs)
  {
  }

  lemma {:induction false} ShrunkResized(r: ReplicaSet, size: nat, q: Quota)
    requires size <= r.spec
    ensures Shrunk([r], [Resized(r, size, q)]) && Shrunk([r], [r])
  {
  }

  lemma {:induction false} CleanupShrinks(rs: seq<ReplicaSet>, budget: int, q: Quota, broken: set<string>)
    ensures Shrunk(rs, Cleanup(rs, budget, q, broken).sets)
  {
    hide Shrunk;
    ShrunkSelf(rs);
    if rs != [] && budget > 0 {
      var r := rs[0];
      assert rs == [r] + rs[1..];
      if r.spec == 0 || r.spec == r.available {
        CleanupShrinks(rs[1..], budget, q, broken);
        ShrunkResized(r, r.spec, q);
        ShrunkCons(r, r, rs[1..], Cleanup(rs[1..], budget, q, broken).sets);
      } else if !(r.spec < r.available || r.name in broken) {
        var k := Min(budget, r.spec - r.available);
        CleanupShrinks(rs[1..], budget - k, q, broken);
        ShrunkResized(r, r.spec - k, q);
        ShrunkCons(r, Resized(r, r.spec - k, q), rs[1..], Cleanup(rs[1..], budget - k, q, broken).sets);
      }
    }
  }

  lemma {:induction false} CleanupStatus(rs: seq<ReplicaSet>, budget: int, q: Quota, broken: set<string>)
    requires StatusCurrent(rs)
    ensures StatusCurrent(Cleanup(rs, budget, q, broken).sets)
    ensures broken == {} ==> !Cleanup(rs, budget, q, broken).failed
  {
    if rs != [] && budget > 0 {
      var r := rs[0];
      assert r in rs && StatusCurrent(rs[1..]);
      if r.spec == r.available {
        CleanupStatus(rs[1..], budget, q, broken);
      } else if r.name !in broken {
        CleanupStatus(rs[1..], budget - Min(budget, r.spec - r.available), q, broken);
      }
    }
  }

  lemma {:induction false} CleanupEffect(rs: seq<ReplicaSet>, budget: int, q: Quota, broken: set<string>)
    ensures var c := Cleanup(rs, budget, q, broken);
      && Shrunk(rs, c.sets)
      && 0 <= c.removed <= Max(budget, 0)
      && Size(c.sets) == Size(rs) - c.removed
      && Sum(AvailableOf, c.sets) == Sum(AvailableOf, rs)
      && Sum(RunningOf, c.sets) == Sum(RunningOf, rs)
      && (StatusCurrent(rs) ==> StatusCurrent(c.sets))
      && (StatusCurrent(rs) && broken == {} ==> !c.failed)
  {
    hide Shrunk, StatusCurrent;
    CleanupShrinks(rs, budget, q, broken);
    if StatusCurrent(rs) {
      CleanupStatus(rs, budget, q, broken);
    }
    if rs != [] && budget > 0 {
      var r := rs[0];
      if r.spec == 0 || r.spec == r.available {
        CleanupEffect(rs[1..], budget, q, broken);
      } else if !(r.spec < r.available || r.name in broken) {
        CleanupEffect(rs[1..], budget - Min(budget, r.spec - r.available), q, broken);
      }
    }
  }

  lemma {:induction false} ScaleDownShrinks(rs: seq<ReplicaSet>, budget: int, q: Quota, broken: set<string>)
    ensures Shrunk(rs, ScaleDown(rs, budget, q, broken).sets)
  {
    hide Shrunk;
    ShrunkSelf(rs);
    if rs != [] && budget > 0 && (rs[0].spec == 0 || rs[0].name !in broken) {
      var r := rs[0];
      assert rs == [r] + rs[1..];
      var k := Min(r.spec, budget);
      ScaleDownShrinks(rs[1..], budget - k, q, broken);
      ShrunkResized(r, r.spec - k, q);
      ShrunkCons(r, if r.spec == 0 then r else Resized(r, r.spec - k, q), rs[1..], ScaleDown(rs[1..], budget - k, q, broken).sets);
    }
  }

  lemma {:induction false} ScaleDownEffect(rs: seq<ReplicaSet>, budget: int, q: Quota, broken: set<string>)
    ensures var c := ScaleDown(rs, budget, q, broken);
      && Shrunk(rs, c.sets)
      && 0 <= c.removed <= Max(budget, 0)
      && Size(c.sets) == Size(rs) - c.removed
      && Sum(RunningOf, c.sets) >= Sum(RunningOf, rs) - c.removed
      && (broken == {} ==> !c.failed && c.removed == Max(0, Min(budget, Size(rs))))
  {
    hide Shrunk;
    ScaleDownShrinks(rs, budget, q, broken);
    if rs != [] && budget > 0 {
      var r := rs[0];
      if r.spec == 0 {
        ScaleDownEffect(rs[1..], budget, q, broken);
      } else if r.name !in broken {
        ScaleDownEffect(rs[1..], budget - Min(r.spec, budget), q, broken);
      }
    }
  }

  lemma {:induction false} SumSort(weight: ReplicaSet -> nat, less: (ReplicaSet, ReplicaSet) -> bool, rs: seq<ReplicaSet>)
    ensures Sum(weight, Sort(less, rs)) == Sum(weight, rs)
  {
    SortPermutes(less, rs);
    SumPermute(weight, Sort(less, rs), rs);
  }

  lemma {:induction false} SumByAge(weight: ReplicaSet -> nat, newRS: ReplicaSet, olds: seq<ReplicaSet>)
    ensures Sum(weight, ByAge(newRS, olds)) == Sum(weight, olds) + weight(newRS)
  {
    ByAgePermutes(newRS, olds);
    SumPermute(weight, ByAge(newRS, olds), olds + [newRS]);
    SumConcat(weight, olds, [newRS]);
  }

  lemma {:induction false} SumPrefix(weight: ReplicaSet -> nat, all: seq<ReplicaSet>, n: nat)
    requires n <= |all|
    ensures Sum(weight, all) == Sum(weight, all[..n]) + Sum(weight, all[n..])
  {
    assert all == all[..n] + all[n..];
    SumConcat(weight, all[..n], all[n..]);
  }

  lemma {:induction false} ShrunkSize(rs: seq<ReplicaSet>, rs': seq<ReplicaSet>)
    requires Shrunk(rs, rs')
    ensures Size(rs') <= Size(rs)
  {
    if rs != [] {
      ShrunkSize(rs[1..], rs'[1..]);
    }
  }

  lemma {:induction false} ShrunkWithout(rs: seq<ReplicaSet>, rs': seq<ReplicaSet>, last: seq<ReplicaSet>, i: nat)
    requires Shrunk(rs, rs') && i < |rs + last|
    ensures var all, after := rs + last, rs' + last;
      Size(after[..i] + after[i + 1..]) <= Size(all[..i] + all[i + 1..])
  {
    var all, after := rs + last, rs' + last;
    ShrunkSize(all[..i] + all[i + 1..], after[..i] + after[i + 1..]);
  }

  lemma {:induction false} ScaleDownSharedEffect(f: Fleet, q: Quota, spare: int, broken: set<string>)
    ensures var (f', drained) := ScaleDownShared(f, q, spare, broken);
      && 0 <= drained.removed <= Max(0, spare)
      && Total(f') == Total(f) - drained.removed
      && Running(f') >= Running(f) - drained.removed
      && f'.newRS.spec <= f.newRS.spec && Size(f'.olds) <= Size(f.olds)
  {
    hide Sort, ScaleDown, Sum;
    var sorted := Sort(RevisionAfter, f.olds);
    var all := ByAge(f.newRS, sorted);
    var n := |f.olds|;
    var budget := Min(spare, ScaleDownLimit(all[..n], f.newRS.spec, q));
    var drained := ScaleDown(all[..n], budget, q, broken);
    ScaleDownEffect(all[..n], budget, q, broken);
    var i := Position(all, f.newRS);
    SortPermutes(RevisionAfter, f.olds);
    SharedTotals(SpecOf, f, sorted, drained.sets, i);
    SharedTotals(RunningOf, f, sorted, drained.sets, i);
    assert all == all[..n] + all[n..];
    ShrunkWithout(all[..n], drained.sets, all[n..], i);
    SumExtract(SpecOf, all, i);
    SumPrefix(SpecOf, all, n);
  }

  lemma {:induction false} SharedTotals(weight: ReplicaSet -> nat, f: Fleet, sorted: seq<ReplicaSet>, drained: seq<ReplicaSet>, i: nat)
    requires multiset(sorted) == multiset(f.olds) && |drained| == |f.olds| == |sorted| && i <= |f.olds|
    ensures var all := ByAge(f.newRS, sorted);
      var f' := Reassembled(drained + all[|f.olds|..], i);
      && Sum(weight, f'.olds) + weight(f'.newRS) == Sum(weight, drained) + Sum(weight, all[|f.olds|..])
      && Sum(weight, f.olds) + weight(f.newRS) == Sum(weight, all[..|f.olds|]) + Sum(weight, all[|f.olds|..])
  {
    var all := ByAge(f.newRS, sorted);
    SumExtract(weight, drained + all[|f.olds|..], i);
    SumConcat(weight, drained, all[|f.olds|..]);
    SumByAge(weight, f.newRS, sorted);
    SumPermute(weight, sorted, f.olds);
    SumPrefix(weight, all, |f.olds|);
  }

  /** The scale-down loop, with or without the shared array, removes only spare
      pods, and never makes the new set larger. */
  lemma {:induction false} ScaleDownOldsEffect(f: Fleet, q: Quota, shared: bool, broken: set<string>)
    ensures var (f', drained) := ScaleDownOlds(f, q, shared, broken);
      && 0 <= drained.removed
      && drained.removed <= Max(0, Sum(AvailableOf, f.olds) + f.newRS.available - (q.replicas - q.unavailable))
      && Total(f') == Total(f) - drained.removed
      && Running(f') >= Running(f) - drained.removed
      && f'.newRS.spec <= f.newRS.spec && Size(f'.olds) <= Size(f.olds)
  {
    hide ScaleDownShared, ScaleDown, Sort, Sum;
    var spare := Sum(AvailableOf, f.olds) + f.newRS.available - (q.replicas - q.unavailable);
    if shared {
      ScaleDownSharedEffect(f, q, spare, broken);
    } else {
      var sorted := Sort(RevisionAfter, f.olds);
      SumSort(SpecOf, RevisionAfter, f.olds);
      SumSort(RunningOf, RevisionAfter, f.olds);
      ScaleDownEffect(sorted, Min(spare, ScaleDownLimit(sorted, f.newRS.spec, q)), q, broken);
    }
  }

  lemma {:induction false} ScaleUpOldsEffect(active: seq<ReplicaSet>, count: int, q: Quota, broken: set<string>)
    ensures var s := ScaleUpOlds(active, count, q, broken);
      && Size(active) <= Size(s) <= Size(active) + Max(count, 0)
      && Sum(RunningOf, s) >= Sum(RunningOf, active)
      && (broken == {} && active != [] ==> Size(s) == Size(active) + Max(count, 0))
  {
    if count > 0 && active != [] {
      SumSort(SpecOf, LargerOrOlder, active);
      SumSort(RunningOf, LargerOrOlder, active);
    }
  }

  /** No round takes availability below what the strategy demands: after it, at
      least `replicas - maxUnavailable` pods are available, or as many as before.
      Nothing is asked of the API calls, the ages, or the array sharing. */
  lemma {:induction false} RoundKeepsAvailability(f: Fleet, q: Quota, shared: bool, broken: set<string>)
    requires Current(f) && q.unavailable >= 0
    ensures Running(Round(f, q, shared, broken)) >= Min(Running(f), q.replicas - q.unavailable)
  {
    hide ShrinkOlds, ScaleUpOlds, Sum, Active, Idle;
    assert f.newRS in [f.newRS];
    var outcome := ReconcileNew(f, q, broken);
    if !outcome.failed && !outcome.scaled {
      var active, idle := Active(f.olds), Idle(f.olds);
      var limit := ScaleDownLimit(active, f.newRS.spec, q);
      if Size(active) != 0 && limit <= 0 {
        SumActive(RunningOf, f.olds);
        ScaleUpOldsEffect(active, -limit, q, broken);
        SumConcat(RunningOf, ScaleUpOlds(active, -limit, q, broken), idle);
      } else if Size(active) != 0 {
        var spare := Size(f.olds) + f.newRS.spec - (q.replicas - q.unavailable) - (f.newRS.spec - f.newRS.available);
        ShrinkKeepsAvailability(f, q, Min(spare, limit), shared, broken);
      }
    }
  }

  lemma {:induction false} ShrinkKeepsAvailability(f: Fleet, q: Quota, budget: int, shared: bool, broken: set<string>)
    requires Current(f)
    ensures Running(ShrinkOlds(f, q, budget, shared, broken)) >= Min(Running(f), q.replicas - q.unavailable)
  {
    hide ScaleDownOlds, Cleanup, Sum, Sort, Active, Idle;
    var active, idle := Active(f.olds), Idle(f.olds);
    var sorted := Sort(CreatedBefore, active);
    var cleaned := Cleanup(sorted, budget, q, broken);
    ActiveMembers(f.olds);
    SortKeepsMembers(CreatedBefore, active);
    assert forall r :: r in active || r in idle ==> r in active + idle;
    CleanupEffect(sorted, budget, q, broken);
    SumActive(RunningOf, f.olds);
    SumSort(RunningOf, CreatedBefore, active);
    SumConcat(RunningOf, cleaned.sets, idle);
    var g := f.(olds := cleaned.sets);
    ScaleDownOldsEffect(g, q, shared, broken);
    var scaled := ScaleDownOlds(g, q, shared, broken).0;
    SumConcat(RunningOf, scaled.olds, idle);
    RunningIsAvailable(cleaned.sets);
    assert f.newRS in [f.newRS];
  }

  /** The next report after a round: unavailable pods went first, pods that were
      kept stay available, and more may have become so. */
  ghost predicate ReportedAfter(r: ReplicaSet, r': ReplicaSet) {
    r' == r.(available := r'.available) && RunningOf(r) <= r'.available <= r.spec
  }

  ghost predicate Follows(f: Fleet, g: Fleet, q: Quota) {
    exists shared, broken: set<string> {:trigger Round(f, q, shared, broken)} ::
      var h := Round(f, q, shared, broken);
      && ReportedAfter(h.newRS, g.newRS)
      && |g.olds| == |h.olds|
      && forall i :: 0 <= i < |g.olds| ==> ReportedAfter(h.olds[i], g.olds[i])
  }

  lemma {:induction false} ReportedRunning(rs: seq<ReplicaSet>, rs': seq<ReplicaSet>)
    requires |rs| == |rs'| && forall i :: 0 <= i < |rs| ==> ReportedAfter(rs[i], rs'[i])
    ensures StatusCurrent(rs') && Sum(RunningOf, rs') >= Sum(RunningOf, rs)
  {
    if rs != [] {
      assert forall i :: 0 <= i < |rs[1..]| ==> rs[1..][i] == rs[i + 1] && rs'[1..][i] == rs'[i + 1];
      ReportedRunning(rs[1..], rs'[1..]);
    }
  }

  /** Availability over a whole run of rounds and reports. */
  lemma {:induction false} RunKeepsAvailability(trace: seq<Fleet>, q: Quota)
    requires trace != [] && Current(trace[0]) && q.unavailable >= 0
    requires forall i :: 0 <= i < |trace| - 1 ==> Follows(trace[i], trace[i + 1], q)
    ensures Current(trace[|trace| - 1])
    ensures Running(trace[|trace| - 1]) >= Min(Running(trace[0]), q.replicas - q.unavailable)
  {
    hide Round, Sum;
    if |trace| > 1 {
      var before := trace[..|trace| - 1];
      RunKeepsAvailability(before, q);
      var f, g := trace[|trace| - 2], trace[|trace| - 1];
      assert Follows(trace[|trace| - 2], trace[|trace| - 2 + 1], q);
      var shared, broken: set<string> :|
        var h := Round(f, q, shared, broken);
        && ReportedAfter(h.newRS, g.newRS)
        && |g.olds| == |h.olds|
        && forall i :: 0 <= i < |g.olds| ==> ReportedAfter(h.olds[i], g.olds[i]);
      RoundKeepsAvailability(f, q, shared, broken);
      ReportedRunning(Round(f, q, shared, broken).olds, g.olds);
    }
  }

  /* ---- sizes, one round ---- */

  /** Every old set is older than the new one, as in a release that is not a
      roll back to a revision whose set still exists. */
  ghost predicate NewIsNewest(f: Fleet) {
    forall o :: o in f.olds ==> CreatedBefore(o, f.newRS)
  }

  lemma ShrunkKeepsAge(rs: seq<ReplicaSet>, rs': seq<ReplicaSet>, newRS: ReplicaSet)
    requires Shrunk(rs, rs') && forall o :: o in rs ==> CreatedBefore(o, newRS)
    ensures forall o :: o in rs' ==> CreatedBefore(o, newRS)
  {
    forall o | o in rs'
      ensures CreatedBefore(o, newRS)
    {
      var i :| 0 <= i < |rs'| && rs'[i] == o;
      assert rs[i] in rs;
    }
  }

  lemma {:induction false} NewestListedLast(newRS: ReplicaSet, olds: seq<ReplicaSet>)
    requires forall o :: o in olds ==> CreatedBefore(o, newRS)
    ensures ByAge(newRS, olds) == Sort(CreatedBefore, olds) + [newRS]
    ensures Position(ByAge(newRS, olds), newRS) == |olds|
  {
    hide Sort;
    forall o | o in olds
      ensures !CreatedBefore(newRS, o) && o != newRS
    {
      CreatedBeforeAsymmetric(o, newRS);
    }
    SortAppendGreatest(CreatedBefore, olds, newRS);
    SortKeepsMembers(CreatedBefore, olds);
    var byAge := Sort(CreatedBefore, olds);
    assert forall i: nat :: i < |byAge| ==> byAge[i] in byAge;
  }

  /** When the new set is the newest, the shared array changes only the order in
      which the old sets are visited. */
  lemma {:induction false} SharedIsHarmless(f: Fleet, q: Quota, spare: int, broken: set<string>)
    requires NewIsNewest(f)
    ensures var byAge := Sort(CreatedBefore, Sort(RevisionAfter, f.olds));
      var drained := ScaleDown(byAge, Min(spare, ScaleDownLimit(f.olds, f.newRS.spec, q)), q, broken);
      ScaleDownShared(f, q, spare, broken) == (Fleet(f.newRS, drained.sets), drained)
  {
    hide ScaleDown, Sort, Sum, ByAge, Position;
    var sorted := Sort(RevisionAfter, f.olds);
    SortKeepsMembers(RevisionAfter, f.olds);
    NewestListedLast(f.newRS, sorted);
    var byAge := Sort(CreatedBefore, sorted);
    var all, n := ByAge(f.newRS, sorted), |f.olds|;
    assert all[..n] == byAge && all[n..] == [f.newRS];
    SumSort(SpecOf, RevisionAfter, f.olds);
    SumSort(SpecOf, CreatedBefore, sorted);
    var budget := Min(spare, ScaleDownLimit(byAge, f.newRS.spec, q));
    DrainShape(byAge, budget, q, broken);
    var left := ScaleDown(byAge, budget, q, broken).sets;
    assert (left + [f.newRS])[..n] + (left + [f.newRS])[n + 1..] == left;
  }

  lemma {:induction false} ScaleDownOldsFloor(f: Fleet, q: Quota, shared: bool, broken: set<string>)
    requires !shared || NewIsNewest(f)
    ensures var (f', drained) := ScaleDownOlds(f, q, shared, broken);
      && f'.newRS == f.newRS
      && Min(Size(f.olds), q.replicas - Max(q.limit, f.newRS.spec)) <= Size(f'.olds) <= Size(f.olds)
      && (NewIsNewest(f) ==> NewIsNewest(f'))
  {
    hide ScaleDown, Sort, Sum;
    var spare := Sum(AvailableOf, f.olds) + f.newRS.available - (q.replicas - q.unavailable);
    if spare > 0 {
      var limit := ScaleDownLimit(f.olds, f.newRS.spec, q);
      var sorted := Sort(RevisionAfter, f.olds);
      SumSort(SpecOf, RevisionAfter, f.olds);
      SortKeepsMembers(RevisionAfter, f.olds);
      if shared {
        SharedIsHarmless(f, q, spare, broken);
        var byAge := Sort(CreatedBefore, sorted);
        SumSort(SpecOf, CreatedBefore, sorted);
        SortKeepsMembers(CreatedBefore, sorted);
        ScaleDownEffect(byAge, Min(spare, limit), q, broken);
        ShrunkKeepsAge(byAge, ScaleDown(byAge, Min(spare, limit), q, broken).sets, f.newRS);
      } else {
        ScaleDownEffect(sorted, Min(spare, limit), q, broken);
        if NewIsNewest(f) {
          ShrunkKeepsAge(sorted, ScaleDown(sorted, Min(spare, limit), q, broken).sets, f.newRS);
        }
      }
    }
  }

  lemma {:induction false} NewestSplit(f: Fleet)
    requires NewIsNewest(f)
    ensures forall o :: o in Active(f.olds) || o in Idle(f.olds) ==> CreatedBefore(o, f.newRS)
  {
    ActiveMembers(f.olds);
    forall o | o in Active(f.olds) || o in Idle(f.olds)
      ensures CreatedBefore(o, f.newRS)
    {
      assert o in Active(f.olds) + Idle(f.olds);
    }
  }

  lemma {:induction false} ShrinkOldsFloor(f: Fleet, q: Quota, budget: int, shared: bool, broken: set<string>)
    requires !shared || NewIsNewest(f)
    requires budget <= ScaleDownLimit(f.olds, f.newRS.spec, q)
    ensures var f' := ShrinkOlds(f, q, budget, shared, broken);
      && f'.newRS == f.newRS
      && Min(Size(f.olds), q.replicas - Max(q.limit, f.newRS.spec)) <= Size(f'.olds) <= Size(f.olds)
      && (NewIsNewest(f) ==> NewIsNewest(f'))
  {
    hide ScaleDownOlds, Cleanup, Sum, Sort, Active, Idle;
    var active, idle := Active(f.olds), Idle(f.olds);
    var sorted := Sort(CreatedBefore, active);
    var cleaned := Cleanup(sorted, budget, q, broken);
    CleanupEffect(sorted, budget, q, broken);
    SumActive(SpecOf, f.olds);
    ActiveIdleSplit(f.olds);
    SumSort(SpecOf, CreatedBefore, active);
    SortKeepsMembers(CreatedBefore, active);
    SumConcat(SpecOf, cleaned.sets, idle);
    if NewIsNewest(f) {
      NewestSplit(f);
      ShrunkKeepsAge(sorted, cleaned.sets, f.newRS);
    }
    var g := f.(olds := cleaned.sets);
    ScaleDownOldsFloor(g, q, shared, broken);
    var scaled := ScaleDownOlds(g, q, shared, broken).0;
    SumConcat(SpecOf, scaled.olds, idle);
  }

  lemma {:induction false} ScaleUpKeepsAge(active: seq<ReplicaSet>, count: int, q: Quota, broken: set<string>, newRS: ReplicaSet)
    requires forall o :: o in active ==> CreatedBefore(o, newRS)
    ensures forall o :: o in ScaleUpOlds(active, count, q, broken) ==> CreatedBefore(o, newRS)
  {
    hide Sort;
    var sorted := Sort(LargerOrOlder, active);
    SortKeepsMembers(LargerOrOlder, active);
    forall o | o in ScaleUpOlds(active, count, q, broken)
      ensures CreatedBefore(o, newRS)
    {
      if o !in sorted {
        assert o == Resized(sorted[0], sorted[0].spec + count, q);
        assert sorted[0] in sorted;
      }
    }
  }

  /** The two scale-down phases never add a pod, however ages and arrays lie. */
  lemma {:induction false} ShrinkOldsNeverGrows(f: Fleet, q: Quota, budget: int, shared: bool, broken: set<string>)
    ensures var f' := ShrinkOlds(f, q, budget, shared, broken);
      f'.newRS.spec <= f.newRS.spec && Size(f'.olds) <= Size(f.olds)
  {
    hide ScaleDownOlds, Cleanup, Sum, Sort, Active, Idle;
    var active, idle := Active(f.olds), Idle(f.olds);
    var sorted := Sort(CreatedBefore, active);
    var cleaned := Cleanup(sorted, budget, q, broken);
    CleanupEffect(sorted, budget, q, broken);
    SumActive(SpecOf, f.olds);
    SumSort(SpecOf, CreatedBefore, active);
    SumConcat(SpecOf, cleaned.sets, idle);
    var g := f.(olds := cleaned.sets);
    ScaleDownOldsEffect(g, q, shared, broken);
    SumConcat(SpecOf, ScaleDownOlds(g, q, shared, broken).0.olds, idle);
  }

  /** The old sets grow at most to their share, `replicas - max(limit, N)`, and the new
      set does not grow. Unless the array is shared with a younger old set, the new set
      stays as it is and the old ones keep their share, or what they had. */
  lemma {:induction false} ReconcileOldsSizes(f: Fleet, q: Quota, shared: bool, broken: set<string>)
    ensures var f' := ReconcileOlds(f, q, shared, broken);
      var share := q.replicas - Max(q.limit, f.newRS.spec);
      && f'.newRS.spec <= f.newRS.spec
      && Size(f'.olds) <= Max(Size(f.olds), share)
      && (Size(f.olds) == 0 ==> f' == f)
      && (!shared || NewIsNewest(f) ==> f'.newRS == f.newRS && Min(Size(f.olds), share) <= Size(f'.olds))
      && (NewIsNewest(f) ==> NewIsNewest(f'))
  {
    hide ShrinkOlds, ScaleUpOlds, Sum, Active, Idle;
    var active, idle := Active(f.olds), Idle(f.olds);
    SumActive(SpecOf, f.olds);
    ActiveIdleSplit(f.olds);
    var limit := ScaleDownLimit(active, f.newRS.spec, q);
    if Size(active) != 0 && limit <= 0 {
      ScaleUpOldsEffect(active, -limit, q, broken);
      SumConcat(SpecOf, ScaleUpOlds(active, -limit, q, broken), idle);
      if NewIsNewest(f) {
        NewestSplit(f);
        ScaleUpKeepsAge(active, -limit, q, broken, f.newRS);
      }
    } else if Size(active) != 0 {
      var spare := Size(f.olds) + f.newRS.spec - (q.replicas - q.unavailable) - (f.newRS.spec - f.newRS.available);
      ShrinkOldsNeverGrows(f, q, Min(spare, limit), shared, broken);
      if !shared || NewIsNewest(f) {
        ShrinkOldsFloor(f, q, Min(spare, limit), shared, broken);
      }
    }
  }

  /** What no round exceeds, from sizes `n` of the new set and `o` of the old ones. */
  ghost predicate SizesBounded(n: int, o: int, n': int, o': int, q: Quota) {
    && n' + o' <= Max(n + o, q.replicas + Max(q.surge, 0))
    && (o > 0 ==> n' <= Max(n, q.limit))
    && (o == 0 ==> o' == 0)
    && (n <= q.replicas ==> n' <= q.replicas)
    && (n > q.replicas ==> n' == n || n' == q.replicas)
    && o' <= Max(o, q.replicas - Max(q.limit, n'))
  }

  /** And neither takes pods from the new set nor the old ones below their share. */
  ghost predicate SizesAllowed(n: int, o: int, n': int, o': int, q: Quota) {
    && SizesBounded(n, o, n', o', q)
    && (n <= q.replicas ==> n <= n')
    && Min(o, q.replicas - Max(q.limit, n')) <= o'
  }

  /** The upper bounds hold for any ages, sharing and failing patches. */
  lemma {:induction false} RoundSizes(f: Fleet, q: Quota, shared: bool, broken: set<string>)
    ensures var f' := Round(f, q, shared, broken);
      && SizesBounded(f.newRS.spec, Size(f.olds), f'.newRS.spec, Size(f'.olds), q)
      && (!shared || NewIsNewest(f) ==> SizesAllowed(f.newRS.spec, Size(f.olds), f'.newRS.spec, Size(f'.olds), q))
      && (NewIsNewest(f) ==> NewIsNewest(f'))
  {
    hide ReconcileOlds, Sum;
    ReconcileOldsSizes(f, q, shared, broken);
  }

  /* ---- sizes, whole runs ---- */

  /** What happens between and in rounds: the kubelets report any availability
      they like, and the controller reconciles. */
  datatype Event = Report(newAvailable: nat, oldAvailable: seq<nat>) | Reconcile(shared: bool, broken: set<string>)

  function Reported(rs: seq<ReplicaSet>, available: seq<nat>): seq<ReplicaSet> {
    if rs == [] || available == [] then rs
    else [rs[0].(available := available[0])] + Reported(rs[1..], available[1..])
  }

  function Step(f: Fleet, e: Event, q: Quota): Fleet {
    match e
    case Report(n, olds) => Fleet(f.newRS.(available := n), Reported(f.olds, olds))
    case Reconcile(shared, broken) => Round(f, q, shared, broken)
  }

  function Run(f: Fleet, events: seq<Event>, q: Quota): Fleet {
    if events == [] then f else Step(Run(f, events[..|events| - 1], q), events[|events| - 1], q)
  }

  lemma {:induction false} ReportedKeepsSizes(rs: seq<ReplicaSet>, available: seq<nat>, newRS: ReplicaSet)
    ensures Size(Reported(rs, available)) == Size(rs)
    ensures (forall o :: o in rs ==> CreatedBefore(o, newRS)) ==> forall o :: o in Reported(rs, available) ==> CreatedBefore(o, newRS)
  {
    if rs != [] && available != [] {
      ReportedKeepsSizes(rs[1..], available[1..], newRS);
      assert rs[0] in rs;
    }
  }

  ghost predicate Sharing(events: seq<Event>) {
    exists i :: 0 <= i < |events| && events[i].Reconcile? && events[i].shared
  }

  /** From sizes `n`, `o`, every run leads to `n'`, `o'` such that: the total never
      passes the larger of where it began and `replicas + surge`; while an old pod exists
      the new set respects the partition; old pods never come back from nothing. */
  ghost predicate RunBounded(n: int, o: int, n': int, o': int, q: Quota) {
    && n' + o' <= Max(n + o, q.replicas + Max(q.surge, 0))
    && (o' > 0 ==> n' <= Max(n, q.limit))
    && (o == 0 ==> o' == 0)
    && (n' == n || n' <= q.replicas)
  }

  /** And the new set never shrinks below where it began unless that was above
      `replicas`; the old sets keep their share. */
  ghost predicate RunAllowed(n: int, o: int, n': int, o': int, q: Quota) {
    && RunBounded(n, o, n', o', q)
    && (n <= q.replicas ==> n <= n')
    && (n > q.replicas ==> n' == n || n' == q.replicas)
    && o' >= Min(o, q.replicas - Max(q.limit, n'))
  }

  lemma {:induction false} StepSizes(f: Fleet, e: Event, q: Quota)
    ensures var g := Step(f, e, q);
      && SizesBounded(f.newRS.spec, Size(f.olds), g.newRS.spec, Size(g.olds), q)
      && (!(e.Reconcile? && e.shared) || NewIsNewest(f) ==> SizesAllowed(f.newRS.spec, Size(f.olds), g.newRS.spec, Size(g.olds), q))
      && (NewIsNewest(f) ==> NewIsNewest(g))
  {
    hide Round, Reported, Sum;
    match e {
      case Report(n, olds) => ReportedKeepsSizes(f.olds, olds, f.newRS.(available := n));
      case Reconcile(shared, broken) => RoundSizes(f, q, shared, broken);
    }
  }

  lemma SharingBefore(events: seq<Event>)
    requires events != []
    ensures var last := events[|events| - 1];
      Sharing(events[..|events| - 1]) || (last.Reconcile? && last.shared) ==> Sharing(events)
  {
    var before := events[..|events| - 1];
    if Sharing(before) {
      var i :| 0 <= i < |before| && before[i].Reconcile? && before[i].shared;
      assert events[i] == before[i];
    }
  }

  /** The upper bounds hold over every run, whatever availability the kubelets report,
      whichever API patches fail and however arrays are shared; the lower ones while no
      array is shared with a younger old set. */
  lemma {:induction false} RunSizes(f: Fleet, events: seq<Event>, q: Quota)
    ensures var g := Run(f, events, q);
      && RunBounded(f.newRS.spec, Size(f.olds), g.newRS.spec, Size(g.olds), q)
      && (!Sharing(events) || NewIsNewest(f) ==> RunAllowed(f.newRS.spec, Size(f.olds), g.newRS.spec, Size(g.olds), q))
      && (NewIsNewest(f) ==> NewIsNewest(g))
  {
    hide Step, Sum, Sharing;
    if events != [] {
      var before := events[..|events| - 1];
      SharingBefore(events);
      RunSizes(f, before, q);
      StepSizes(Run(f, before, q), events[|events| - 1], q);
    }
  }

  /** The new set is created with all pods if there are no old ones; otherwise with what is
      missing to the total allowed, as far as the partition grants it, and without a surge
      with one pod at least. It adds at most the surge, or that single pod. */
  lemma {:induction false} CreationSize(f: Fleet, q: Quota)
    requires f.newRS.spec == 0
    ensures var g := Created(f, q);
      && g.olds == f.olds && g.newRS.name == f.newRS.name
      && g.newRS.spec == (if Size(f.olds) == 0 then q.replicas
                          else Max(Min(q.replicas + q.surge - Size(f.olds), q.limit), if q.surge <= 0 && q.replicas > 0 then 1 else 0))
      && Total(g) <= Max(Total(f) + (if q.surge <= 0 && q.replicas > 0 then 1 else 0), q.replicas + Max(q.surge, 0))
      && (Size(f.olds) > 0 ==> g.newRS.spec <= Max(1, q.limit))
  {
    hide Sum;
  }
}
