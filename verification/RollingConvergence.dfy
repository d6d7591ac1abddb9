/** With every pod available between rounds, the rolling update is a machine on
    two counters, and it comes to rest at one known place. */
module RollingConvergence {
  import opened Arithmetic
  import opened Sorting
  import opened ReplicaSets
  import opened RollingUpdate
  import opened RollingProperties
  import opened SharedArray
  import opened OldShare

  ghost predicate Healthy(rs: seq<ReplicaSet>) {
    forall r :: r in rs ==> r.available == r.spec
  }

  ghost predicate AllAvailable(f: Fleet) {
    Healthy(f.olds) && f.newRS.available == f.newRS.spec
  }

  /** One round on the size of the new set and the total of the old ones. */
  function Next(n: int, o: int, q: Quota): (int, int) {
    var limit := o - (q.replicas - Max(q.limit, n));
    var spare := n + o - (q.replicas - q.unavailable);
    if n > q.replicas then (q.replicas, o)
    else if o == 0 then (q.replicas, 0)
    else if n < q.limit && n + o < q.replicas + q.surge then
      (Min(n + Min(q.replicas + q.surge - n - o, q.replicas - n), q.limit), o)
    else if limit <= 0 then (n, o - limit)
    else if spare <= 0 then (n, o)
    else (n, o - Min(spare, limit))
  }

  lemma {:induction false} CleanupSkipsHealthy(rs: seq<ReplicaSet>, budget: int, q: Quota)
    requires Healthy(rs)
    ensures Cleanup(rs, budget, q, {}) == Drained(rs, 0, false)
  {
    if rs != [] && budget > 0 {
      assert rs[0] in rs;
      assert Healthy(rs[1..]);
      CleanupSkipsHealthy(rs[1..], budget, q);
      assert rs == [rs[0]] + rs[1..];
    }
  }

  lemma {:induction false} HealthySplit(rs: seq<ReplicaSet>)
    requires Healthy(rs)
    ensures Healthy(Sort(CreatedBefore, Active(rs)))
  {
    ActiveMembers(rs);
    SortKeepsMembers(CreatedBefore, Active(rs));
    forall r | r in Active(rs)
      ensures r.available == r.spec
    {
      assert r in Active(rs) + Idle(rs);
    }
  }

  lemma {:induction false} HealthySums(rs: seq<ReplicaSet>)
    requires Healthy(rs)
    ensures Sum(AvailableOf, rs) == Size(rs)
  {
    if rs != [] {
      assert Healthy(rs[1..]);
      HealthySums(rs[1..]);
      assert rs[0] in rs;
    }
  }

  /** Over a shared array: the set that the loop misses changes its budget, or it takes
      pods from the new set. */
  predicate Astray(f: Fleet, q: Quota) {
    var spare := Spare(f, q);
    || Max(0, SharedBudget(f, q, spare)) != Min(spare, ScaleDownLimit(f.olds, f.newRS.spec, q))
    || LostByNew(f, q, spare, {}) > 0
  }

  /** A round over a shared array comes to scale down and goes astray. */
  predicate Misled(f: Fleet, q: Quota) {
    ReachesScaleDown(f, q, {}) && Astray(Cleaned(f, q, {}), q)
  }

  lemma {:induction false} SharedExactly(f: Fleet, q: Quota)
    requires 0 < ScaleDownLimit(f.olds, f.newRS.spec, q) && 0 < Spare(f, q)
    requires f.newRS.spec <= q.replicas
    ensures var f' := ScaleDownShared(f, q, Spare(f, q), {}).0;
      var due := Min(Spare(f, q), ScaleDownLimit(f.olds, f.newRS.spec, q));
      (f'.newRS.spec, Size(f'.olds)) == (f.newRS.spec, Size(f.olds) - due) <==> !Astray(f, q)
  {
    hide Sort, Sum, ScaleDownShared, LostByNew, Spare;
    var listed := ByAge(f.newRS, Sort(RevisionAfter, f.olds))[..|f.olds|];
    ReachedAll(listed);
    SharedLeavesOlds(f, q, Spare(f, q), {});
    SharedLoses(f, q, Spare(f, q), {});
  }

  lemma {:induction false} ScaleDownOldsExact(f: Fleet, q: Quota, shared: bool)
    requires 0 < ScaleDownLimit(f.olds, f.newRS.spec, q) && 0 < Spare(f, q)
    requires f.newRS.spec <= q.replicas
    ensures var f' := ScaleDownOlds(f, q, shared, {}).0;
      var due := Min(Spare(f, q), ScaleDownLimit(f.olds, f.newRS.spec, q));
      (f'.newRS.spec, Size(f'.olds)) == (f.newRS.spec, Size(f.olds) - due) <==> !(shared && Astray(f, q))
  {
    hide ScaleDown, ScaleDownShared, Astray, Sort, Sum;
    if shared {
      SharedExactly(f, q);
    } else {
      SumSort(SpecOf, RevisionAfter, f.olds);
      ScaleDownEffect(Sort(RevisionAfter, f.olds), Min(Spare(f, q), ScaleDownLimit(f.olds, f.newRS.spec, q)), q, {});
    }
  }

  /** A healthy fleet is cleaned up to its active old sets, by age. */
  lemma {:induction false} CleanedHealthy(f: Fleet, q: Quota)
    requires AllAvailable(f)
    ensures CleanedOlds(f, q, {}) == Drained(Sort(CreatedBefore, Active(f.olds)), 0, false)
    ensures Size(Cleaned(f, q, {}).olds) == Size(f.olds) == Size(Active(f.olds))
    ensures Spare(Cleaned(f, q, {}), q) == Size(f.olds) + f.newRS.spec - (q.replicas - q.unavailable)
  {
    hide Sum, Sort, Active, Idle, Cleanup;
    HealthySplit(f.olds);
    CleanupSkipsHealthy(Sort(CreatedBefore, Active(f.olds)), CleanupBudget(f, q), q);
    HealthySums(Sort(CreatedBefore, Active(f.olds)));
    SumActive(SpecOf, f.olds);
    ActiveIdleSplit(f.olds);
    SumSort(SpecOf, CreatedBefore, Active(f.olds));
  }

  lemma {:induction false} ShrinkOldsExact(f: Fleet, q: Quota, shared: bool)
    requires AllAvailable(f) && ReachesScaleDown(f, q, {}) && f.newRS.spec <= q.replicas
    ensures var f' := ShrinkOlds(f, q, CleanupBudget(f, q), shared, {});
      (f'.newRS.spec, Size(f'.olds)) == (f.newRS.spec, Size(f.olds) - CleanupBudget(f, q)) <==> !(shared && Misled(f, q))
  {
    hide ScaleDownOlds, Cleanup, Sum, Sort, Active, Idle, Astray, ReconcileNew;
    CleanedHealthy(f, q);
    var g := Cleaned(f, q, {});
    ScaleDownOldsExact(g, q, shared);
    ActiveIdleSplit(f.olds);
    SumConcat(SpecOf, ScaleDownOlds(g, q, shared, {}).0.olds, Idle(f.olds));
  }

  lemma {:induction false} RoundShrinksOlds(f: Fleet, q: Quota, shared: bool)
    requires AllAvailable(f) && ReachesScaleDown(f, q, {})
    ensures f.newRS.spec <= q.replicas
    ensures Round(f, q, shared, {}) == ShrinkOlds(f, q, CleanupBudget(f, q), shared, {})
    ensures Next(f.newRS.spec, Size(f.olds), q) == (f.newRS.spec, Size(f.olds) - CleanupBudget(f, q))
  {
    hide ShrinkOlds, ScaleUpOlds, Sum, Active, Idle, CleanedOlds;
    CleanedHealthy(f, q);
  }

  lemma {:induction false} OtherRoundsRefine(f: Fleet, q: Quota, shared: bool)
    requires AllAvailable(f) && q.unavailable >= 0 && !ReachesScaleDown(f, q, {})
    ensures var f' := Round(f, q, shared, {});
      (f'.newRS.spec, Size(f'.olds)) == Next(f.newRS.spec, Size(f.olds), q)
  {
    hide ShrinkOlds, ScaleUpOlds, Sum, Active, Idle, CleanedOlds;
    if !ReconcileNew(f, q, {}).scaled {
      CleanedHealthy(f, q);
      var active, idle := Active(f.olds), Idle(f.olds);
      EmptySum(active);
      ActiveIdleSplit(f.olds);
      var limit := ScaleDownLimit(active, f.newRS.spec, q);
      ScaleUpOldsEffect(active, -limit, q, {});
      SumConcat(SpecOf, ScaleUpOlds(active, -limit, q, {}), idle);
    }
  }

  /** The engine refines the two counters, except for rounds misled by a shared array:
      sorting, filtering, ages, revisions and the shape of the old sets have no influence
      on the two totals. */
  lemma {:induction false} RoundRefinesCounters(f: Fleet, q: Quota, shared: bool)
    requires AllAvailable(f) && q.unavailable >= 0
    ensures var f' := Round(f, q, shared, {});
      (f'.newRS.spec, Size(f'.olds)) == Next(f.newRS.spec, Size(f.olds), q) <==> !(shared && Misled(f, q))
  {
    hide Round, ShrinkOlds, ReachesScaleDown, Astray, Next, Sum, AllAvailable;
    if ReachesScaleDown(f, q, {}) {
      RoundShrinksOlds(f, q, shared);
      ShrinkOldsExact(f, q, shared);
    } else {
      OtherRoundsRefine(f, q, shared);
    }
  }

  lemma {:induction false} NewestIsNotAstray(f: Fleet, q: Quota)
    requires NewIsNewest(f) && f.newRS.spec <= q.replicas
    requires 0 < ScaleDownLimit(f.olds, f.newRS.spec, q) && 0 < Spare(f, q)
    ensures !Astray(f, q)
  {
    hide Sum, Sort, Spare, Astray, ScaleDown, ScaleDownShared;
    SharedExactly(f, q);
    SharedIsHarmless(f, q, Spare(f, q), {});
    var byAge := Sort(CreatedBefore, Sort(RevisionAfter, f.olds));
    SumSort(SpecOf, RevisionAfter, f.olds);
    SumSort(SpecOf, CreatedBefore, Sort(RevisionAfter, f.olds));
    ScaleDownEffect(byAge, Min(Spare(f, q), ScaleDownLimit(f.olds, f.newRS.spec, q)), q, {});
  }

  /** With the new set as the newest no round is misled. */
  lemma {:induction false} NewestIsNotMisled(f: Fleet, q: Quota)
    requires AllAvailable(f) && NewIsNewest(f) && q.unavailable >= 0
    ensures !Misled(f, q)
  {
    hide Sum, Sort, Active, Idle, Astray, CleanedOlds, ReconcileNew, ScaleDownShared, CreatedBefore, Round, ShrinkOlds, Next;
    if ReachesScaleDown(f, q, {}) {
      RoundShrinksOlds(f, q, true);
      CleanedHealthy(f, q);
      NewestSplit(f);
      SortKeepsMembers(CreatedBefore, Active(f.olds));
      NewestIsNotAstray(Cleaned(f, q, {}), q);
    }
  }

  /* ---- the counters ---- */

  /** Surge and unavailability make room for progress; without pods none is needed. */
  predicate CanMove(q: Quota) {
    q.surge >= 0 && q.unavailable >= 0 && (q.surge + q.unavailable > 0 || q.replicas == 0)
  }

  /** Where the counters come to rest. */
  function Goal(n: int, o: int, q: Quota): (int, int) {
    if o == 0 || n >= q.replicas then (q.replicas, 0)
    else (Max(n, q.limit), q.replicas - Max(n, q.limit))
  }

  function Distance(n: int, o: int, q: Quota): nat {
    Max(0, q.limit - n) + Abs(o - (q.replicas - Max(q.limit, n)))
  }

  /** Every round that changes a size brings the counters nearer to a goal that
      does not move, and only the goal is left alone. */
  lemma NextApproachesGoal(n: nat, o: nat, q: Quota)
    requires CanMove(q)
    ensures var (n', o') := Next(n, o, q);
      && n' >= 0 && o' >= 0
      && Goal(n', o', q) == Goal(n, o, q)
      && ((n', o') == (n, o) <==> (n, o) == Goal(n, o, q))
      && ((n', o') != (n, o) ==> Distance(n', o', q) < Distance(n, o, q))
  {
  }

  /** Exactly when a round leaves both counters alone: at rest, or stuck below
      the partition with neither surge nor unavailability. */
  lemma NextStalls(n: nat, o: nat, q: Quota)
    requires q.surge >= 0 && q.unavailable >= 0
    ensures Next(n, o, q) == (n, o) <==>
      n + o == q.replicas && (n >= q.limit || (o > 0 && q.surge == 0 && q.unavailable == 0))
  {
  }

  lemma ScaledNotNegative(v: IntOrString, total: nat, up: bool)
    requires v.Int? ==> v.value >= 0
    requires v.Percent? ==> v.percent >= 0
    ensures Scaled(v, total, up) >= 0
  {
    if v.Percent? {
      assert v.percent * total >= 0;
      CeilDivBounds(v.percent * total, 100);
    }
  }

  predicate Sensible(v: Option<IntOrString>) {
    v.Some? ==> match v.value
      case Int(i) => i >= 0
      case Percent(p) => p >= 0
      case Malformed => false
  }

  /** A rolling-update strategy with sensible values always can move, even one
      whose percentages round down to nothing. */
  lemma {:induction false} StrategyCanMove(d: Deployment)
    requires d.rollingUpdate.Some?
    requires Sensible(d.rollingUpdate.value.maxSurge) && Sensible(d.rollingUpdate.value.maxUnavailable)
    ensures CanMove(QuotaOf(d))
  {
    hide Scaled, PartitionLimit;
    var f := d.rollingUpdate.value;
    ScaledNotNegative(ValueOrZero(f.maxSurge), d.replicas, true);
    ScaledNotNegative(ValueOrZero(f.maxUnavailable), d.replicas, false);
  }

  /* ---- runs of rounds ---- */

  function HealedSets(rs: seq<ReplicaSet>): seq<ReplicaSet> {
    if rs == [] then [] else [rs[0].(available := rs[0].spec)] + HealedSets(rs[1..])
  }

  function Healed(f: Fleet): Fleet {
    Fleet(f.newRS.(available := f.newRS.spec), HealedSets(f.olds))
  }

  lemma {:induction false} HealedSetsKeep(rs: seq<ReplicaSet>, newRS: ReplicaSet)
    ensures Size(HealedSets(rs)) == Size(rs) && Healthy(HealedSets(rs))
    ensures (forall o :: o in rs ==> CreatedBefore(o, newRS)) ==> forall o :: o in HealedSets(rs) ==> CreatedBefore(o, newRS)
  {
    if rs != [] {
      HealedSetsKeep(rs[1..], newRS);
      assert rs[0] in rs;
    }
  }

  /** Rounds with all pods becoming available after each; every round may or may
      not meet the shared array. */
  function Rounds(f: Fleet, shares: seq<bool>, q: Quota): Fleet {
    if shares == [] then f
    else Healed(Round(Rounds(f, shares[..|shares| - 1], q), q, shares[|shares| - 1], {}))
  }

  /** No round of the run is misled. */
  predicate Straight(f: Fleet, shares: seq<bool>, q: Quota) {
    shares == [] ||
    var before := shares[..|shares| - 1];
    Straight(f, before, q) && !(shares[|shares| - 1] && Misled(Rounds(f, before, q), q))
  }

  lemma {:induction false} RoundsStayHealthy(f: Fleet, shares: seq<bool>, q: Quota)
    requires AllAvailable(f)
    ensures AllAvailable(Rounds(f, shares, q)) && (NewIsNewest(f) ==> NewIsNewest(Rounds(f, shares, q)))
  {
    hide Round, HealedSets, Sum;
    if shares != [] {
      var before, shared := shares[..|shares| - 1], shares[|shares| - 1];
      RoundsStayHealthy(f, before, q);
      RoundSizes(Rounds(f, before, q), q, shared, {});
      var h := Round(Rounds(f, before, q), q, shared, {});
      HealedSetsKeep(h.olds, h.newRS.(available := h.newRS.spec));
    }
  }

  /** No round is misled while the new set is the newest, or when no array is shared. */
  lemma {:induction false} NewestIsStraight(f: Fleet, shares: seq<bool>, q: Quota)
    requires AllAvailable(f) && q.unavailable >= 0 && (true in shares ==> NewIsNewest(f))
    ensures Straight(f, shares, q)
  {
    hide Rounds, Misled, NewIsNewest;
    if shares != [] {
      var before := shares[..|shares| - 1];
      NewestIsStraight(f, before, q);
      RoundsStayHealthy(f, before, q);
      if shares[|shares| - 1] {
        NewestIsNotMisled(Rounds(f, before, q), q);
      }
    }
  }

  lemma {:induction false} RoundsApproachGoal(f: Fleet, shares: seq<bool>, q: Quota)
    requires CanMove(q) && AllAvailable(f) && Straight(f, shares, q)
    ensures var g := Rounds(f, shares, q);
      && AllAvailable(g)
      && Goal(g.newRS.spec, Size(g.olds), q) == Goal(f.newRS.spec, Size(f.olds), q)
      && ((g.newRS.spec, Size(g.olds)) == Goal(f.newRS.spec, Size(f.olds), q)
          || Distance(g.newRS.spec, Size(g.olds), q) + |shares| <= Distance(f.newRS.spec, Size(f.olds), q))
  {
    hide Round, Sum, Next, Goal, Distance, Misled, HealedSets;
    RoundsStayHealthy(f, shares, q);
    if shares != [] {
      var before, shared := shares[..|shares| - 1], shares[|shares| - 1];
      RoundsApproachGoal(f, before, q);
      var g := Rounds(f, before, q);
      RoundRefinesCounters(g, q, shared);
      NextApproachesGoal(g.newRS.spec, Size(g.olds), q);
      var h := Round(g, q, shared, {});
      HealedSetsKeep(h.olds, h.newRS);
    }
  }

  /** The rolling update terminates, and where: after `Distance` rounds the new
      set holds the larger of its start and the partition, the old sets the rest;
      or everything is new, if no old pod existed or the new set was complete. It does so
      from any healthy fleet, unless a round on the way is misled by a shared array. */
  lemma {:induction false} RollingConverges(f: Fleet, shares: seq<bool>, q: Quota)
    requires CanMove(q) && AllAvailable(f) && Straight(f, shares, q)
    requires |shares| >= Distance(f.newRS.spec, Size(f.olds), q)
    ensures var g := Rounds(f, shares, q);
      (g.newRS.spec, Size(g.olds)) == Goal(f.newRS.spec, Size(f.olds), q)
  {
    hide Rounds, Sum, Straight;
    RoundsApproachGoal(f, shares, q);
  }

  /** So that the new set ends with exactly what the partition grants, if it had less. */
  lemma {:induction false} RollingReachesPartition(f: Fleet, shares: seq<bool>, d: Deployment, n: nat)
    requires Granted(d.partition, d.replicas, n) && f.newRS.spec <= n < d.replicas && Size(f.olds) > 0
    requires CanMove(QuotaOf(d)) && AllAvailable(f) && Straight(f, shares, QuotaOf(d))
    requires |shares| >= Distance(f.newRS.spec, Size(f.olds), QuotaOf(d))
    ensures var g := Rounds(f, shares, QuotaOf(d)); g.newRS.spec == n && Size(g.olds) == d.replicas - n
  {
    hide Rounds, Sum, Straight, PartitionLimit, Granted, Distance, AllAvailable;
    PartitionGrants(d, n);
    RollingConverges(f, shares, QuotaOf(d));
  }

  /* ---- the bounds of a strategy ---- */

  predicate WellFormed(v: Option<IntOrString>) {
    v.Some? ==> !v.value.Malformed?
  }

  predicate RoundsUpTo(v: Option<IntOrString>, total: int, n: int) {
    if v.Some? then IsRoundedUp(v.value, total, n) else n == 0
  }

  predicate RoundsDownTo(v: Option<IntOrString>, total: int, n: int) {
    if v.Some? then IsRoundedDown(v.value, total, n) else n == 0
  }

  /** The surge is rounded up and the unavailability down; if both are nothing one pod may
      be unavailable, and never more than there are. A value that is neither number nor
      percentage makes both zero, and so does having no bounds at all. */
  lemma {:induction false} StrategyBounds(d: Deployment) returns (u: int)
    ensures var f := if d.rollingUpdate.Some? then d.rollingUpdate.value else Fenceposts(None, None);
      if d.rollingUpdate.Some? && WellFormed(f.maxSurge) && WellFormed(f.maxUnavailable) then
        && RoundsUpTo(f.maxSurge, d.replicas, MaxSurge(d))
        && RoundsDownTo(f.maxUnavailable, d.replicas, u)
        && (d.replicas == 0 ==> MaxUnavailable(d) == 0)
        && (d.replicas > 0 ==>
              if MaxSurge(d) == 0 && u == 0 then MaxUnavailable(d) == 1
              else if u <= d.replicas then MaxUnavailable(d) == u
              else MaxUnavailable(d) == d.replicas)
      else MaxSurge(d) == 0 == MaxUnavailable(d)
  {
    var f := if d.rollingUpdate.Some? then d.rollingUpdate.value else Fenceposts(None, None);
    u := Scaled(ValueOrZero(f.maxUnavailable), d.replicas, false);
    ScaledRounds(ValueOrZero(f.maxSurge), d.replicas);
    ScaledRounds(ValueOrZero(f.maxUnavailable), d.replicas);
    hide Scaled;
  }

  /* ---- rounds that get stuck over a shared array ---- */

  /** The old sets are beyond their share, but the set that the loop misses has so many
      pods that the loop finds nothing due. */
  predicate Stuck(f: Fleet, q: Quota) {
    var g := Cleaned(f, q, {});
    ReachesScaleDown(f, q, {}) && SharedBudget(g, q, Spare(g, q)) <= 0
  }

  lemma {:induction false} SharedChangesTotal(f: Fleet, q: Quota, spare: int)
    requires f.newRS.spec <= q.replicas
    ensures Total(ScaleDownShared(f, q, spare, {}).0) == Total(f) - Max(0, SharedBudget(f, q, spare))
  {
    hide Sum, Sort, Reached, LostByNew, ScaleDownShared;
    ReachedAll(ByAge(f.newRS, Sort(RevisionAfter, f.olds))[..|f.olds|]);
    SharedLeavesOlds(f, q, spare, {});
    SharedLoses(f, q, spare, {});
  }

  lemma {:induction false} ShrinkOldsShared(f: Fleet, q: Quota)
    requires var g := Cleaned(f, q, {}); !CleanedOlds(f, q, {}).failed && Spare(g, q) > 0
    ensures var g := Cleaned(f, q, {});
      Total(ShrinkOlds(f, q, CleanupBudget(f, q), true, {})) == Total(ScaleDownShared(g, q, Spare(g, q), {}).0)
  {
    hide ScaleDownShared, Cleanup, Sum, Sort, Active, Idle;
    var g := Cleaned(f, q, {});
    ActiveIdleSplit(f.olds);
    SumConcat(SpecOf, ScaleDownShared(g, q, Spare(g, q), {}).0.olds, Idle(f.olds));
  }

  lemma {:induction false} ReachingMeans(f: Fleet, q: Quota)
    requires AllAvailable(f) && ReachesScaleDown(f, q, {})
    ensures CleanupBudget(f, q) > 0 && !CleanedOlds(f, q, {}).failed && Spare(Cleaned(f, q, {}), q) > 0
    ensures CanMove(q) ==> (f.newRS.spec, Size(f.olds)) != Goal(f.newRS.spec, Size(f.olds), q)
  {
    CleanedHealthy(f, q);
    RoundShrinksOlds(f, q, true);
    if CanMove(q) {
      NextApproachesGoal(f.newRS.spec, Size(f.olds), q);
    }
    hide Sum, Sort, Active, Idle, ReconcileNew, AllAvailable, CleanedOlds, Round, ShrinkOlds, Next, Goal;
  }

  lemma {:induction false} ReachingRests(f: Fleet, q: Quota)
    requires AllAvailable(f) && ReachesScaleDown(f, q, {})
    ensures var f' := Round(f, q, true, {});
      (f'.newRS.spec, Size(f'.olds)) == (f.newRS.spec, Size(f.olds)) <==> Stuck(f, q)
  {
    hide CleanedOlds, Sum, Active, Idle, ReachesScaleDown, ScaleDownShared, Round, Next, ShrinkOlds, AllAvailable, SharedBudget, CleanupBudget, Spare;
    RoundShrinksOlds(f, q, true);
    ReachingMeans(f, q);
    CleanedHealthy(f, q);
    var g := Cleaned(f, q, {});
    ShrinkOldsShared(f, q);
    SharedChangesTotal(g, q, Spare(g, q));
    ShrinkOldsNeverGrows(f, q, CleanupBudget(f, q), true, {});
  }

  /** Exactly when a round over a shared array leaves both totals alone. */
  lemma {:induction false} SharedRestsExactlyWhen(f: Fleet, q: Quota)
    requires AllAvailable(f) && CanMove(q)
    ensures var f' := Round(f, q, true, {});
      (f'.newRS.spec, Size(f'.olds)) == (f.newRS.spec, Size(f.olds))
      <==> (f.newRS.spec, Size(f.olds)) == Goal(f.newRS.spec, Size(f.olds), q) || Stuck(f, q)
  {
    hide Round, ReachesScaleDown, Cleaned, SharedBudget, Spare, Next, Goal, Sum, AllAvailable;
    if ReachesScaleDown(f, q, {}) {
      ReachingMeans(f, q);
      ReachingRests(f, q);
    } else {
      NextApproachesGoal(f.newRS.spec, Size(f.olds), q);
      OtherRoundsRefine(f, q, true);
    }
  }

  /** As the API server guarantees. */
  predicate UniqueNames(f: Fleet) {
    forall x, y :: x in f.olds + [f.newRS] && y in f.olds + [f.newRS] && x != y ==> x.name != y.name
  }

  /** Without equals the list by age does not depend on the order it is made from. */
  lemma {:induction false} ByAgeUnique(newRS: ReplicaSet, s: seq<ReplicaSet>, t: seq<ReplicaSet>)
    requires multiset(s) == multiset(t)
    requires forall x, y :: x in s + [newRS] && y in s + [newRS] && x != y ==> x.name != y.name
    ensures ByAge(newRS, s) == ByAge(newRS, t)
  {
    hide Sort, CreatedBefore;
    CreatedBeforeOrders();
    SortSorted(CreatedBefore, s + [newRS]);
    SortSorted(CreatedBefore, t + [newRS]);
    SortKeepsMembers(CreatedBefore, s + [newRS]);
    forall x, y | x in ByAge(newRS, s) && y in ByAge(newRS, s) && x != y
      ensures CreatedBefore(x, y) || CreatedBefore(y, x)
    {
      CreatedBeforeTotal(x, y);
    }
    ByAgePermutes(newRS, s);
    ByAgePermutes(newRS, t);
    SortedUnique(CreatedBefore, ByAge(newRS, s), ByAge(newRS, t));
  }

  /** The same sets, listed in another order. */
  ghost predicate Reordered(f: Fleet, g: Fleet) {
    g.newRS == f.newRS && multiset(g.olds) == multiset(f.olds)
  }

  lemma {:induction false} WithoutOne(all: seq<ReplicaSet>, i: nat)
    requires i < |all|
    ensures multiset(all[..i] + all[i + 1..]) == multiset(all) - multiset{all[i]}
  {
    assert all == all[..i] + [all[i]] + all[i + 1..];
  }

  lemma {:induction false} SharedUnchanged(f: Fleet, q: Quota, spare: int)
    requires SharedBudget(f, q, spare) <= 0
    ensures var all := ByAge(f.newRS, Sort(RevisionAfter, f.olds));
      ScaleDownShared(f, q, spare, {}).0 == Reassembled(all, Position(all, f.newRS))
  {
    hide Sort, Sum, ByAge, Position, Reassembled;
    var all := ByAge(f.newRS, Sort(RevisionAfter, f.olds));
    assert ScaleDown(all[..|f.olds|], SharedBudget(f, q, spare), q, {}).sets == all[..|f.olds|];
    assert all[..|f.olds|] + all[|f.olds|..] == all;
  }

  lemma {:induction false} SharedWithoutBudget(f: Fleet, q: Quota, spare: int)
    requires SharedBudget(f, q, spare) <= 0
    ensures Reordered(f, ScaleDownShared(f, q, spare, {}).0)
  {
    hide Sort, Sum, ScaleDownShared, SharedBudget, ByAge, Position;
    var sorted := Sort(RevisionAfter, f.olds);
    var all := ByAge(f.newRS, sorted);
    SharedUnchanged(f, q, spare);
    SortPermutes(RevisionAfter, f.olds);
    ByAgePermutes(f.newRS, sorted);
    WithoutOne(all, Position(all, f.newRS));
  }

  lemma {:induction false} StuckRound(f: Fleet, q: Quota)
    requires AllAvailable(f)
    ensures Stuck(f, q) ==> Reordered(f, Round(f, q, true, {}))
  {
    hide Sum, Sort, Active, Idle, ReachesScaleDown, ScaleDownShared, Round, Next, AllAvailable, SharedBudget, CleanupBudget, Cleanup;
    if Stuck(f, q) {
      RoundShrinksOlds(f, q, true);
      ReachingMeans(f, q);
      CleanedHealthy(f, q);
      var g := Cleaned(f, q, {});
      SortPermutes(CreatedBefore, Active(f.olds));
      SharedWithoutBudget(g, q, Spare(g, q));
      ActiveIdleSplit(f.olds);
    }
  }

  lemma {:induction false} HealthyReordered(f: Fleet, g: Fleet)
    requires AllAvailable(f) && UniqueNames(f) && Reordered(f, g)
    ensures AllAvailable(g) && UniqueNames(g) && Size(g.olds) == Size(f.olds)
    ensures multiset(Active(g.olds)) == multiset(Active(f.olds))
  {
    SameMembers(f.olds, g.olds);
    SumPermute(SpecOf, g.olds, f.olds);
    ActiveReordered(f.olds, g.olds);
  }

  lemma {:induction false} ActiveCounts(rs: seq<ReplicaSet>, r: ReplicaSet)
    ensures multiset(Active(rs))[r] == if r.spec > 0 then multiset(rs)[r] else 0
  {
    if rs != [] {
      ActiveCounts(rs[1..], r);
      assert rs == [rs[0]] + rs[1..];
    }
  }

  lemma {:induction false} ActiveReordered(rs: seq<ReplicaSet>, rs': seq<ReplicaSet>)
    requires multiset(rs) == multiset(rs')
    ensures multiset(Active(rs)) == multiset(Active(rs'))
  {
    forall r: ReplicaSet
      ensures multiset(Active(rs))[r] == multiset(Active(rs'))[r]
    {
      ActiveCounts(rs, r);
      ActiveCounts(rs', r);
    }
  }

  lemma {:induction false} StuckReordered(f: Fleet, g: Fleet, q: Quota)
    requires AllAvailable(f) && UniqueNames(f) && Reordered(f, g)
    ensures Stuck(f, q) ==> Stuck(g, q)
  {
    hide Sum, Sort, Active, Idle, Cleanup, AllAvailable, CreatedBefore;
    HealthyReordered(f, g);
    CleanedHealthy(f, q);
    CleanedHealthy(g, q);
    var s, t := Sort(RevisionAfter, Cleaned(f, q, {}).olds), Sort(RevisionAfter, Cleaned(g, q, {}).olds);
    SortPermutes(CreatedBefore, Active(f.olds));
    SortPermutes(CreatedBefore, Active(g.olds));
    SortPermutes(RevisionAfter, Cleaned(f, q, {}).olds);
    SortPermutes(RevisionAfter, Cleaned(g, q, {}).olds);
    SameMembers(s, t);
    SameMembers(s, Active(f.olds));
    ActiveMembers(f.olds);
    forall x | x in s
      ensures x in f.olds
    {
      assert x in Active(f.olds) + Idle(f.olds);
    }
    ByAgeUnique(f.newRS, s, t);
  }

  lemma {:induction false} HealedSetsHealthy(rs: seq<ReplicaSet>)
    requires Healthy(rs)
    ensures HealedSets(rs) == rs
  {
    if rs != [] {
      assert rs[0] in rs && Healthy(rs[1..]);
      HealedSetsHealthy(rs[1..]);
      assert rs == [rs[0]] + rs[1..];
    }
  }

  /** A stuck roll back never completes: rounds over a shared array leave all sets as
      they are for ever, away from the goal. */
  lemma {:induction false} StuckForEver(f: Fleet, k: nat, q: Quota)
    requires AllAvailable(f) && UniqueNames(f) && CanMove(q)
    ensures var g := Rounds(f, seq(k, i => true), q);
      Stuck(f, q) ==>
        && Reordered(f, g) && Stuck(g, q)
        && (g.newRS.spec, Size(g.olds)) != Goal(f.newRS.spec, Size(f.olds), q)
  {
    hide Sum, ReachesScaleDown, SharedBudget, Cleaned, Spare, UniqueNames, Round, HealedSets, Healthy, Goal;
    if k == 0 {
      if Stuck(f, q) {
        ReachingMeans(f, q);
      }
    } else if Stuck(f, q) {
      var shares := seq(k, i => true);
      assert shares[..k - 1] == seq(k - 1, i => true);
      StuckForEver(f, k - 1, q);
      var g := Rounds(f, shares[..k - 1], q);
      HealthyReordered(f, g);
      StuckRound(g, q);
      var h := Round(g, q, true, {});
      HealthyReordered(g, h);
      StuckReordered(g, h, q);
      HealedSetsHealthy(h.olds);
    }
  }

  /** Rolled back to the second of four revisions: the youngest set has six of the
      eight old pods, two more than their share. */
  const YOUNGEST := BAD_D.(spec := 6, available := 6)
  const STUCK := Fleet(ROLLED_TO, [OLDEST, BAD_C.(available := 1), YOUNGEST])
  const STUCK_QUOTA: Quota := Quota(10, 4, 2, 0)

  lemma {:induction false} StuckReaches()
    ensures AllAvailable(STUCK) && ReachesScaleDown(STUCK, STUCK_QUOTA, {})
    ensures Cleaned(STUCK, STUCK_QUOTA, {}) == STUCK && Total(STUCK) == STUCK_QUOTA.replicas + 2
  {
    hide Sum, Sort, Active, Idle, Cleanup;
    SumOfThree(SpecOf, STUCK.olds[0], STUCK.olds[1], STUCK.olds[2]);
    ActiveOfThree(STUCK.olds[0], STUCK.olds[1], STUCK.olds[2]);
    LastOldOrders(STUCK.olds[1], STUCK.olds[2]);
    CleanedHealthy(STUCK, STUCK_QUOTA);
  }

  /** So that it stays there with twelve pods, however often it is reconciled. */
  lemma {:induction false} RollBackGetsStuck()
    ensures AllAvailable(STUCK) && UniqueNames(STUCK) && CanMove(STUCK_QUOTA) && Stuck(STUCK, STUCK_QUOTA)
    ensures Total(STUCK) == STUCK_QUOTA.replicas + 2
  {
    StuckReaches();
    hide Sum, Sort, Cleaned, ReachesScaleDown, Spare, AllAvailable, StringBefore;
    var c := STUCK.olds[1];
    LastOldOrders(c, YOUNGEST);
    assert [OLDEST, ROLLED_TO, c, YOUNGEST][..3] == [OLDEST, ROLLED_TO, c];
    SumOfThree(SpecOf, OLDEST, ROLLED_TO, c);
    assert STUCK.olds + [ROLLED_TO] == [OLDEST, c, YOUNGEST, ROLLED_TO];
    assert OLDEST.name[0] == 'a' && ROLLED_TO.name[0] == 'b' && c.name[0] == 'c' && YOUNGEST.name[0] == 'd';
  }

  /* ---- a roll back over the shared array ---- */

  /** Three old sets, all younger than the new set, as after rolling back to the
      first revision; for a slice of length three Go reserves four slots. */
  const NEW_RS := ReplicaSet("d", 0, Some(9), 3, 3, Some(4), Some(6))
  const OLD_A := ReplicaSet("a", 1, Some(6), 1, 1, None, None)
  const OLD_B := ReplicaSet("b", 2, Some(7), 1, 1, None, None)
  const OLD_C := ReplicaSet("c", 3, Some(8), 1, 1, None, None)
  const ROLLED_BACK := Fleet(NEW_RS, [OLD_A, OLD_B, OLD_C])
  const ROLL_BACK_QUOTA: Quota := Quota(4, 4, 2, 1)

  lemma {:induction false} RollBackOrders()
    ensures Sort(CreatedBefore, [OLD_A, OLD_B, OLD_C]) == [OLD_A, OLD_B, OLD_C]
    ensures Sort(RevisionAfter, [OLD_A, OLD_B, OLD_C]) == [OLD_C, OLD_B, OLD_A]
    ensures Sort(CreatedBefore, [OLD_C, OLD_B, OLD_A] + [NEW_RS]) == [NEW_RS, OLD_A, OLD_B, OLD_C]
  {
    hide Sort, StringBefore, Reversed;
    assert !CreatedBefore(OLD_B, OLD_A) && !CreatedBefore(OLD_C, OLD_A) && !CreatedBefore(OLD_C, OLD_B);
    SortKeepsSorted(CreatedBefore, [OLD_A, OLD_B, OLD_C]);
    assert RevisionAfter(OLD_B, OLD_A) && RevisionAfter(OLD_C, OLD_A) && RevisionAfter(OLD_C, OLD_B);
    SortReverses(RevisionAfter, [OLD_A, OLD_B, OLD_C]);
    ReversedFour(OLD_A, OLD_B, OLD_C, NEW_RS);
    assert CreatedBefore(OLD_B, OLD_C) && CreatedBefore(OLD_A, OLD_C) && CreatedBefore(NEW_RS, OLD_C);
    assert CreatedBefore(OLD_A, OLD_B) && CreatedBefore(NEW_RS, OLD_B) && CreatedBefore(NEW_RS, OLD_A);
    SortReverses(CreatedBefore, [OLD_C, OLD_B, OLD_A, NEW_RS]);
    assert [OLD_C, OLD_B, OLD_A] + [NEW_RS] == [OLD_C, OLD_B, OLD_A, NEW_RS];
    ReversedFour(OLD_C, OLD_B, OLD_A, NEW_RS);
  }

  /** The round meant to remove old pods empties the new set instead. */
  lemma {:induction false} RollBackShrinksNew()
    ensures Round(ROLLED_BACK, ROLL_BACK_QUOTA, true, {}) == ROLLED_BACK.(newRS := NEW_RS.(spec := 0))
  {
    hide Sort, Sum, Cleanup, Active, Idle;
    var olds := [OLD_A, OLD_B, OLD_C];
    SumOfThree(SpecOf, OLD_A, OLD_B, OLD_C);
    SumOfThree(AvailableOf, OLD_A, OLD_B, OLD_C);
    SumOfThree(SpecOf, NEW_RS, OLD_A, OLD_B);
    ActiveOfThree(OLD_A, OLD_B, OLD_C);
    RollBackOrders();
    CleanupSkipsHealthy(olds, 3, ROLL_BACK_QUOTA);
    var all := [NEW_RS, OLD_A, OLD_B, OLD_C];
    assert all[..3] == [NEW_RS, OLD_A, OLD_B] && all[3..] == [OLD_C];
    assert [NEW_RS, OLD_A, OLD_B][1..] == [OLD_A, OLD_B];
    assert ScaleDown([OLD_A, OLD_B], 0, ROLL_BACK_QUOTA, {}).sets == [OLD_A, OLD_B];
    var after := [NEW_RS.(spec := 0), OLD_A, OLD_B] + [OLD_C];
    assert Position(all, NEW_RS) == 0;
    assert after[..0] + after[1..] == olds == olds + [];
  }

  /** The roll back never completes: every second round restores the fleet. */
  lemma {:induction false} RollBackNeverCompletes(k: nat)
    ensures var shares := seq(2 * k, i => true);
      Rounds(ROLLED_BACK, shares, ROLL_BACK_QUOTA) == ROLLED_BACK
    ensures (NEW_RS.spec, Size(ROLLED_BACK.olds)) != Goal(NEW_RS.spec, Size(ROLLED_BACK.olds), ROLL_BACK_QUOTA)
  {
    hide Sum, ReconcileOlds;
    SumOfThree(SpecOf, OLD_A, OLD_B, OLD_C);
    if k > 0 {
      RollBackNeverCompletes(k - 1);
      var f, q := ROLLED_BACK, ROLL_BACK_QUOTA;
      var shares := seq(2 * k, i => true);
      var one := shares[..2 * k - 1];
      assert one[..2 * k - 2] == seq(2 * (k - 1), i => true);
      RollBackShrinksNew();
      var g := f.(newRS := NEW_RS.(spec := 0, available := 0));
      assert HealedSets([OLD_C]) == [OLD_C];
      assert HealedSets([OLD_B, OLD_C]) == [OLD_B, OLD_C];
      assert HealedSets(f.olds) == f.olds;
      assert Rounds(f, one, q) == g;
      assert Round(g, q, true, {}) == g.(newRS := g.newRS.(spec := 3));
    }
  }
}
