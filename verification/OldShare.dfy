/** The share of the old sets, `replicas - max(limit, N)`: exactly when a round takes
    them below it, and when a run takes the last old pod. */
module OldShare {
  import opened Arithmetic
  import opened Sorting
  import opened ReplicaSets
  import opened RollingUpdate
  import opened RollingProperties
  import opened SharedArray

  /* ---- one scale-down ---- */

  /** The sets a scale-down comes to: all before the first refused patch. */
  function Reached(rs: seq<ReplicaSet>, broken: set<string>): seq<ReplicaSet> {
    if rs == [] || (rs[0].spec > 0 && rs[0].name in broken) then []
    else [rs[0]] + Reached(rs[1..], broken)
  }

  lemma {:induction false} ScaleDownRemoves(rs: seq<ReplicaSet>, budget: int, q: Quota, broken: set<string>)
    ensures ScaleDown(rs, budget, q, broken).removed == Max(0, Min(budget, Size(Reached(rs, broken))))
  {
    if rs != [] && budget > 0 && (rs[0].spec == 0 || rs[0].name !in broken) {
      ScaleDownRemoves(rs[1..], budget - Min(rs[0].spec, budget), q, broken);
    }
  }

  lemma {:induction false} ReachedAll(rs: seq<ReplicaSet>)
    ensures Reached(rs, {}) == rs
  {
    if rs != [] {
      ReachedAll(rs[1..]);
      assert rs == [rs[0]] + rs[1..];
    }
  }

  /** A refused patch before place `i`, or at it, ends the loop there. */
  lemma {:induction false} ReachedUpTo(rs: seq<ReplicaSet>, i: nat, broken: set<string>)
    requires i < |rs|
    ensures var before := Size(Reached(rs[..i], broken));
      && before <= Size(rs[..i])
      && (Unbroken(rs, i, broken) ==> before == Size(rs[..i]) && before + rs[i].spec <= Size(Reached(rs, broken)))
      && (!Unbroken(rs, i, broken) ==> before == Size(Reached(rs, broken)))
  {
    if i == 0 {
      assert rs[..0] == [];
    } else {
      hide Unbroken;
      UnbrokenStep(rs, i, broken);
      SizeOfPrefix(rs, i);
      assert rs[..i][1..] == rs[1..][..i - 1];
      ReachedUpTo(rs[1..], i - 1, broken);
    }
  }

  /** The budget of a scale-down over a shared array, and the old pods it comes to
      before the new set. */
  function SharedBudget(f: Fleet, q: Quota, spare: int): int {
    Min(spare, ScaleDownLimit(ByAge(f.newRS, Sort(RevisionAfter, f.olds))[..|f.olds|], f.newRS.spec, q))
  }

  function OldsBeforeNew(f: Fleet, broken: set<string>): nat {
    var all := ByAge(f.newRS, Sort(RevisionAfter, f.olds));
    Size(Reached(all[..Position(all, f.newRS)], broken))
  }

  predicate YoungerOld(f: Fleet) {
    Position(ByAge(f.newRS, Sort(RevisionAfter, f.olds)), f.newRS) < |f.olds|
  }

  /** An old set is younger than the new one, and more is taken from the older ones
      than the old sets have beyond their share. */
  predicate MissesShare(f: Fleet, q: Quota, spare: int, broken: set<string>) {
    YoungerOld(f) && Min(SharedBudget(f, q, spare), OldsBeforeNew(f, broken)) > Max(0, ScaleDownLimit(f.olds, f.newRS.spec, q))
  }

  lemma {:induction false} SharedSums(f: Fleet)
    ensures var all := ByAge(f.newRS, Sort(RevisionAfter, f.olds));
      Size(all[..|f.olds|]) == Size(f.olds) + f.newRS.spec - all[|f.olds|].spec
  {
    hide Sort;
    var n := |f.olds|;
    var all := ByAge(f.newRS, Sort(RevisionAfter, f.olds));
    SumByAge(SpecOf, f.newRS, Sort(RevisionAfter, f.olds));
    SumSort(SpecOf, RevisionAfter, f.olds);
    SumPrefix(SpecOf, all, n);
    assert all[n..] == [all[n]];
    assert Sum(SpecOf, all[n..]) == all[n].spec;
  }

  /** What the old sets lose over a shared array is what the loop removes and the new
      set does not lose. */
  lemma {:induction false} SharedLeavesOlds(f: Fleet, q: Quota, spare: int, broken: set<string>)
    ensures var listed := ByAge(f.newRS, Sort(RevisionAfter, f.olds))[..|f.olds|];
      var removed := Max(0, Min(SharedBudget(f, q, spare), Size(Reached(listed, broken))));
      Size(ScaleDownShared(f, q, spare, broken).0.olds) == Size(f.olds) - removed + LostByNew(f, q, spare, broken)
  {
    hide Sort, Sum, ScaleDown, Reached, LostByNew;
    var listed := ByAge(f.newRS, Sort(RevisionAfter, f.olds))[..|f.olds|];
    ScaleDownRemoves(listed, SharedBudget(f, q, spare), q, broken);
    ScaleDownSharedEffect(f, q, spare, broken);
    SharedLoses(f, q, spare, broken);
  }

  /** Over a shared array the old sets end below their share, and below what they had,
      if and only if `MissesShare`, and then without all that was taken before the loop
      came to the new set. */
  lemma {:induction false} SharedMissesShareExactlyWhen(f: Fleet, q: Quota, spare: int, broken: set<string>)
    ensures var left := Size(ScaleDownShared(f, q, spare, broken).0.olds);
      && (left < Min(Size(f.olds), q.replicas - Max(q.limit, f.newRS.spec)) <==> MissesShare(f, q, spare, broken))
      && (MissesShare(f, q, spare, broken) ==> left == Size(f.olds) - Min(SharedBudget(f, q, spare), OldsBeforeNew(f, broken)))
  {
    hide Sort, Sum, ScaleDownShared, Unbroken, Reached;
    var all := ByAge(f.newRS, Sort(RevisionAfter, f.olds));
    var listed, i := all[..|f.olds|], Position(all, f.newRS);
    SharedLeavesOlds(f, q, spare, broken);
    SharedSums(f);
    if i < |f.olds| {
      assert listed[..i] == all[..i];
      ReachedUpTo(listed, i, broken);
    }
  }

  /** Without refused patches and with the old sets at their share or above it: the
      youngest set, which the loop misses, is smaller than the new one, and both what is
      spare and the older sets exceed what the old sets have beyond their share. */
  lemma {:induction false} MissesShareByAge(f: Fleet, q: Quota, spare: int)
    requires ScaleDownLimit(f.olds, f.newRS.spec, q) >= 0
    ensures var all := ByAge(f.newRS, Sort(RevisionAfter, f.olds));
      var i := Position(all, f.newRS);
      MissesShare(f, q, spare, {}) <==>
        && i < |f.olds| && f.newRS.spec > all[|f.olds|].spec
        && Min(spare, Size(all[..i])) > ScaleDownLimit(f.olds, f.newRS.spec, q)
  {
    hide Sort, Sum, Reached;
    var all := ByAge(f.newRS, Sort(RevisionAfter, f.olds));
    SharedSums(f);
    ReachedAll(all[..Position(all, f.newRS)]);
  }

  /* ---- one round ---- */

  lemma {:induction false} OldsMissShareExactlyWhen(f: Fleet, q: Quota, shared: bool, broken: set<string>)
    ensures var left := Size(ScaleDownOlds(f, q, shared, broken).0.olds);
      var share := q.replicas - Max(q.limit, f.newRS.spec);
      && (left < Min(Size(f.olds), share) <==> shared && MissesShare(f, q, Spare(f, q), broken))
      && (shared && MissesShare(f, q, Spare(f, q), broken) ==>
            left == Size(f.olds) - Min(SharedBudget(f, q, Spare(f, q)), OldsBeforeNew(f, broken)))
  {
    hide Sort, ScaleDownShared, SharedBudget, OldsBeforeNew, YoungerOld, NewIsNewest, Sum;
    if shared {
      SharedMissesShareExactlyWhen(f, q, Spare(f, q), broken);
      SpareLimitsBudget(f, q, Spare(f, q));
    } else {
      ScaleDownOldsFloor(f, q, false, broken);
    }
  }

  lemma {:induction false} SpareLimitsBudget(f: Fleet, q: Quota, spare: int)
    ensures SharedBudget(f, q, spare) <= spare
  {
  }

  /** A round comes to scale down over a shared array, with a fleet that misses its
      share. */
  predicate RoundMissesShare(f: Fleet, q: Quota, shared: bool, broken: set<string>) {
    var g := Cleaned(f, q, broken);
    shared && ReachesScaleDown(f, q, broken) && MissesShare(g, q, Spare(g, q), broken)
  }

  /** Clean-up leaves the old sets at their share or above it. */
  lemma {:induction false} CleanedKeepsShare(f: Fleet, q: Quota, broken: set<string>)
    requires CleanupBudget(f, q) > 0
    ensures Min(Size(f.olds), q.replicas - Max(q.limit, f.newRS.spec)) <= Size(Cleaned(f, q, broken).olds) <= Size(f.olds)
    ensures q.replicas - Max(q.limit, f.newRS.spec) < Size(f.olds)
  {
    hide Cleanup, Sum, Sort, Active, Idle;
    CleanupEffect(Sort(CreatedBefore, Active(f.olds)), CleanupBudget(f, q), q, broken);
    SumSort(SpecOf, CreatedBefore, Active(f.olds));
    SumActive(SpecOf, f.olds);
    ActiveIdleSplit(f.olds);
  }

  /** Where a round that comes to scale down leaves the old sets. */
  lemma {:induction false} RoundScalesDown(f: Fleet, q: Quota, shared: bool, broken: set<string>)
    requires ReachesScaleDown(f, q, broken)
    ensures Size(Round(f, q, shared, broken).olds) == Size(ScaleDownOlds(Cleaned(f, q, broken), q, shared, broken).0.olds)
  {
    hide Sort, Sum, ScaleDownOlds, Cleanup, ScaleUpOlds, Active, Idle, ReconcileNew;
    ActiveIdleSplit(f.olds);
    SumConcat(SpecOf, ScaleDownOlds(Cleaned(f, q, broken), q, shared, broken).0.olds, Idle(f.olds));
  }

  /** Every other round keeps the share. */
  lemma {:induction false} OtherRoundsKeepShare(f: Fleet, q: Quota, shared: bool, broken: set<string>)
    requires !ReachesScaleDown(f, q, broken)
    ensures Size(Round(f, q, shared, broken).olds) >= Min(Size(f.olds), q.replicas - Max(q.limit, f.newRS.spec))
  {
    hide Sort, Sum, ScaleDownOlds, Cleanup, ScaleUpOlds, Active, Idle, ReconcileNew;
    SumActive(SpecOf, f.olds);
    ActiveIdleSplit(f.olds);
    ScaleUpOldsEffect(Active(f.olds), -ScaleDownLimit(Active(f.olds), f.newRS.spec, q), q, broken);
    SumConcat(SpecOf, ScaleUpOlds(Active(f.olds), -ScaleDownLimit(Active(f.olds), f.newRS.spec, q), q, broken), Idle(f.olds));
    if CleanupBudget(f, q) > 0 {
      CleanedKeepsShare(f, q, broken);
      SumConcat(SpecOf, CleanedOlds(f, q, broken).sets, Idle(f.olds));
    }
  }

  /** A whole round leaves the old sets below their share, and below what they had, if
      and only if it scales down over a shared array with a fleet that misses it. */
  lemma {:induction false} RoundMissesShareExactlyWhen(f: Fleet, q: Quota, shared: bool, broken: set<string>)
    ensures Size(Round(f, q, shared, broken).olds) < Min(Size(f.olds), q.replicas - Max(q.limit, f.newRS.spec))
            <==> RoundMissesShare(f, q, shared, broken)
  {
    hide Sum, Round, ScaleDownOlds, MissesShare, CleanedOlds, CleanupBudget, Spare, ReconcileNew, Active;
    if ReachesScaleDown(f, q, broken) {
      RoundScalesDown(f, q, shared, broken);
      CleanedKeepsShare(f, q, broken);
      OldsMissShareExactlyWhen(Cleaned(f, q, broken), q, shared, broken);
    } else {
      OtherRoundsKeepShare(f, q, shared, broken);
    }
  }

  /* ---- whole runs ---- */

  /** No round of the run misses the share. */
  predicate SharesKept(f: Fleet, events: seq<Event>, q: Quota) {
    events == [] ||
    var before, last := events[..|events| - 1], events[|events| - 1];
    && SharesKept(f, before, q)
    && (last.Reconcile? ==> !RoundMissesShare(Run(f, before, q), q, last.shared, last.broken))
  }

  /** Then the old sets keep the share they began with, or what they had, also where the
      new set loses pods over a shared array and gets them back. */
  lemma {:induction false} RunKeepsShare(f: Fleet, events: seq<Event>, q: Quota)
    requires SharesKept(f, events, q)
    ensures Size(Run(f, events, q).olds) >= Min(Size(f.olds), q.replicas - Max(q.limit, f.newRS.spec))
  {
    hide Round, Reported, Sum, RoundMissesShare;
    if events != [] {
      var before, last := events[..|events| - 1], events[|events| - 1];
      RunKeepsShare(f, before, q);
      RunSizes(f, before, q);
      var g := Run(f, before, q);
      match last {
        case Report(n, olds) => ReportedKeepsSizes(g.olds, olds, g.newRS);
        case Reconcile(shared, broken) => RoundMissesShareExactlyWhen(g, q, shared, broken);
      }
    }
  }

  /* ---- the last old pod ---- */

  /** Everything the cleaned old sets have is taken before the loop comes to the new
      set, although their share is at least one pod. */
  predicate TakesLastOld(f: Fleet, q: Quota, shared: bool, broken: set<string>) {
    var g := Cleaned(f, q, broken);
    && shared && ReachesScaleDown(f, q, broken)
    && YoungerOld(g) && Min(SharedBudget(g, q, Spare(g, q)), OldsBeforeNew(g, broken)) == Size(g.olds)
  }

  /** While the partition grants the new set less than everything, a round takes the
      last old pod if and only if `TakesLastOld`. */
  lemma {:induction false} LastOldGoesExactlyWhen(f: Fleet, q: Quota, shared: bool, broken: set<string>)
    requires q.limit < q.replicas && f.newRS.spec < q.replicas && Size(f.olds) >= 1
    ensures Size(Round(f, q, shared, broken).olds) == 0 <==> TakesLastOld(f, q, shared, broken)
  {
    hide Sum, Round, ScaleDownOlds, CleanedOlds, CleanupBudget, Spare, ReconcileNew, Active, SharedBudget, OldsBeforeNew, YoungerOld;
    RoundMissesShareExactlyWhen(f, q, shared, broken);
    if ReachesScaleDown(f, q, broken) {
      RoundScalesDown(f, q, shared, broken);
      CleanedKeepsShare(f, q, broken);
      OldsMissShareExactlyWhen(Cleaned(f, q, broken), q, shared, broken);
    }
  }

  /** In round `k` of the run the last old pod goes. */
  predicate TakenAt(f: Fleet, events: seq<Event>, k: nat, q: Quota)
    requires k < |events|
  {
    && events[k].Reconcile?
    && TakesLastOld(Run(f, events[..k], q), q, events[k].shared, events[k].broken)
  }

  ghost predicate LastOldTaken(f: Fleet, events: seq<Event>, q: Quota) {
    exists k: nat :: k < |events| && TakenAt(f, events, k, q)
  }

  lemma {:induction false} TakenBefore(f: Fleet, events: seq<Event>, q: Quota)
    requires events != []
    ensures LastOldTaken(f, events, q) <==>
      LastOldTaken(f, events[..|events| - 1], q) || TakenAt(f, events, |events| - 1, q)
  {
    hide Run, TakesLastOld;
    var before := events[..|events| - 1];
    forall k: nat | k < |before|
      ensures TakenAt(f, before, k, q) <==> TakenAt(f, events, k, q)
    {
      assert before[..k] == events[..k];
    }
    if LastOldTaken(f, before, q) {
      var k: nat :| k < |before| && TakenAt(f, before, k, q);
      assert TakenAt(f, events, k, q);
    }
    if LastOldTaken(f, events, q) && !TakenAt(f, events, |events| - 1, q) {
      var k: nat :| k < |events| && TakenAt(f, events, k, q);
      assert TakenAt(f, before, k, q);
    }
  }

  /** While the partition grants the new set less than everything, a run that starts with
      an old pod and an incomplete new set keeps both, unless one of its rounds scales
      down over a shared array and takes the last old pod; without a younger old set no
      round does. */
  lemma {:induction false} OldPodStaysExactlyWhen(f: Fleet, events: seq<Event>, q: Quota)
    requires q.limit < q.replicas && f.newRS.spec < q.replicas && Size(f.olds) >= 1
    ensures var g := Run(f, events, q);
      && (Size(g.olds) >= 1 <==> !LastOldTaken(f, events, q))
      && (Size(g.olds) >= 1 ==> g.newRS.spec <= Max(f.newRS.spec, q.limit))
      && (!Sharing(events) || NewIsNewest(f) ==> Size(g.olds) >= 1)
  {
    hide Round, Reported, Sum, TakesLastOld, Sharing, LastOldTaken, NewIsNewest;
    RunSizes(f, events, q);
    if events == [] {
      assert !LastOldTaken(f, [], q) by { NothingTaken(f, q); }
    } else {
      var before, last := events[..|events| - 1], events[|events| - 1];
      OldPodStaysExactlyWhen(f, before, q);
      TakenBefore(f, events, q);
      SharingBefore(events);
      var g := Run(f, before, q);
      RunSizes(f, before, q);
      StepSizes(g, last, q);
      if Size(g.olds) >= 1 {
        match last {
          case Report(n, olds) => ReportedKeepsSizes(g.olds, olds, g.newRS);
          case Reconcile(shared, broken) => LastOldGoesExactlyWhen(g, q, shared, broken);
        }
      }
    }
  }

  lemma {:induction false} NothingTaken(f: Fleet, q: Quota)
    ensures !LastOldTaken(f, [], q)
  {
  }

  /** The number of pods that a partition grants of `replicas`: an integer held within
      them; or the least number that makes up the percentage, but one pod less than all
      where there are several and it is not 100%. */
  predicate Granted(partition: IntOrString, replicas: nat, n: nat) {
    match partition
    case Int(k) => (0 <= k <= replicas ==> n == k) && (k < 0 ==> n == 0) && (k > replicas ==> n == replicas)
    case Percent(p) =>
      var most := if replicas > 1 && p != 100 then replicas - 1 else replicas;
      && n <= most
      && (n > 0 ==> 100 * (n - 1) < p * replicas)
      && (n < most ==> p * replicas <= 100 * n)
    case Malformed => n == 0
  }

  /** It is one number, and the one that `NewRSReplicasLimit` gives. */
  lemma {:induction false} PartitionGrants(d: Deployment, n: nat)
    ensures Granted(d.partition, d.replicas, n) <==> n == PartitionLimit(d)
  {
    ScaledRounds(d.partition, d.replicas);
    hide Scaled;
  }

  /** While an old pod exists, no run takes the new set beyond the larger of where it
      began and the number granted. */
  lemma {:induction false} RunRespectsPartition(f: Fleet, events: seq<Event>, d: Deployment, n: nat)
    requires Granted(d.partition, d.replicas, n)
    ensures var g := Run(f, events, QuotaOf(d)); Size(g.olds) > 0 ==> g.newRS.spec <= Max(f.newRS.spec, n)
  {
    hide Run, Sum, PartitionLimit, Granted, Sharing, NewIsNewest;
    PartitionGrants(d, n);
    RunSizes(f, events, QuotaOf(d));
  }

  /** A percentage partition other than 100% keeps the last old pod, unless a round
      takes it over a shared array. */
  lemma {:induction false} PercentKeepsOldPodExactlyWhen(f: Fleet, events: seq<Event>, d: Deployment)
    requires d.replicas > 1 && d.partition.IsString() && d.partition != Percent(100)
    requires f.newRS.spec < d.replicas && Size(f.olds) >= 1
    ensures Size(Run(f, events, QuotaOf(d)).olds) >= 1 <==> !LastOldTaken(f, events, QuotaOf(d))
    ensures !Sharing(events) || NewIsNewest(f) ==> Size(Run(f, events, QuotaOf(d)).olds) >= 1
  {
    PartitionGrants(d, PartitionLimit(d));
    hide Run, Sum, PartitionLimit, LastOldTaken, Sharing, NewIsNewest;
    OldPodStaysExactlyWhen(f, events, QuotaOf(d));
  }

  /* ---- a roll back that loses the last old pod ---- */

  /** Rolled back to the second of four revisions, whose set is complete up to the
      partition of 80%; the two younger sets have pods that are not available. */
  const ROLL_BACK := Deployment(5, 7, Percent(80), Some(Fenceposts(Some(Int(2)), Some(Int(1)))))
  const ROLLED_TO := ReplicaSet("b", 1, Some(9), 4, 4, None, None)
  const OLDEST := ReplicaSet("a", 0, Some(6), 1, 1, None, None)
  const BAD_C := ReplicaSet("c", 2, Some(7), 1, 0, None, None)
  const BAD_D := ReplicaSet("d", 3, Some(8), 1, 0, None, None)
  const LAST_OLD := Fleet(ROLLED_TO, [OLDEST, BAD_C, BAD_D])
  const EIGHTY: Quota := QuotaOf(ROLL_BACK)

  lemma {:induction false} EightyPercentQuota()
    ensures EIGHTY == Quota(5, 4, 2, 1)
  {
  }

  function Emptied(r: ReplicaSet): ReplicaSet {
    Resized(r, 0, EIGHTY)
  }

  lemma {:induction false} LastOldOrders(c: ReplicaSet, d: ReplicaSet)
    requires c.created == 2 && c.revision == Some(7) && d.created == 3 && d.revision == Some(8)
    ensures Sort(CreatedBefore, [OLDEST, c, d]) == [OLDEST, c, d]
    ensures ByAge(ROLLED_TO, Sort(RevisionAfter, [OLDEST, c, d])) == [OLDEST, ROLLED_TO, c, d]
  {
    hide Sort, StringBefore, Reversed;
    SortKeepsSorted(CreatedBefore, [OLDEST, c, d]);
    SortReverses(RevisionAfter, [OLDEST, c, d]);
    ReversedFour(OLDEST, c, d, ROLLED_TO);
    assert CreatedBefore(OLDEST, d) && CreatedBefore(ROLLED_TO, d) && CreatedBefore(c, d);
    SortFour(CreatedBefore, OLDEST, ROLLED_TO, c, d);
  }

  lemma {:induction false} LastOldCleaned()
    ensures ReachesScaleDown(LAST_OLD, EIGHTY, {})
    ensures Cleaned(LAST_OLD, EIGHTY, {}) == Fleet(ROLLED_TO, [OLDEST, Emptied(BAD_C), Emptied(BAD_D)])
  {
    EightyPercentQuota();
    hide Sort, Sum, Active, Idle, QuotaOf;
    SumOfThree(SpecOf, OLDEST, BAD_C, BAD_D);
    ActiveOfThree(OLDEST, BAD_C, BAD_D);
    LastOldOrders(BAD_C, BAD_D);
    assert [OLDEST, BAD_C, BAD_D][1..] == [BAD_C, BAD_D] && [BAD_C, BAD_D][1..] == [BAD_D] && [BAD_D][1..] == [];
    assert Cleanup([BAD_D], 1, EIGHTY, {}) == Drained([Emptied(BAD_D)], 1, false);
    assert Cleanup([BAD_C, BAD_D], 2, EIGHTY, {}) == Drained([Emptied(BAD_C), Emptied(BAD_D)], 2, false);
  }

  lemma {:induction false} LastOldListed(c: ReplicaSet, d: ReplicaSet, q: Quota)
    requires q == Quota(5, 4, 2, 1)
    requires c.created == 2 && c.revision == Some(7) && c.spec == c.available == 0
    requires d.created == 3 && d.revision == Some(8) && d.spec == d.available == 0
    ensures var g := Fleet(ROLLED_TO, [OLDEST, c, d]);
      && YoungerOld(g) && OldsBeforeNew(g, {}) == Size(g.olds) == 1
      && Spare(g, q) == 1 && SharedBudget(g, q, 1) == 1
  {
    hide Sort, Reached, StringBefore;
    LastOldOrders(c, d);
    var all := [OLDEST, ROLLED_TO, c, d];
    SumOfThree(SpecOf, OLDEST, c, d);
    SumOfThree(AvailableOf, OLDEST, c, d);
    SumOfThree(SpecOf, OLDEST, ROLLED_TO, c);
    assert all[..3] == [OLDEST, ROLLED_TO, c];
    assert all[1..][0] == ROLLED_TO && Position(all, ROLLED_TO) == 1;
    assert all[..1] == [OLDEST];
    ReachedAll([OLDEST]);
    assert Sum(SpecOf, [OLDEST]) == SpecOf(OLDEST) + Sum(SpecOf, [OLDEST][1..]);
  }

  /** With an 80% partition one round over a shared array takes all three old pods, and
      the next one makes the new set complete. */
  lemma {:induction false} RollBackLosesLastOld(shared: bool)
    ensures var g := Round(LAST_OLD, EIGHTY, true, {});
      && Size(LAST_OLD.olds) == 3 && Size(g.olds) == 0
      && Round(g, EIGHTY, shared, {}).newRS.spec == ROLL_BACK.replicas
  {
    EightyPercentQuota();
    LastOldCleaned();
    hide Sum, Active, Sort, Reached, ReconcileOlds, ReachesScaleDown, CleanedOlds, Cleaned, YoungerOld, OldsBeforeNew, SharedBudget, Spare, QuotaOf;
    SumOfThree(SpecOf, OLDEST, BAD_C, BAD_D);
    LastOldListed(Emptied(BAD_C), Emptied(BAD_D), EIGHTY);
    LastOldGoesExactlyWhen(LAST_OLD, EIGHTY, true, {});
    RoundSizes(LAST_OLD, EIGHTY, true, {});
  }
}
