/** Runs of the BatchRelease executor under arbitrary edits of the release,
    workload events and failing calls: a reported Ready is honest, every workload
    call is made for a batch that exists, and undisturbed work comes to an end. */
module BatchReleaseRuns {
  import opened Arithmetic
  import opened BatchRelease

  /** The stored release and status, the release a round in progress has read,
      and every workload call made so far. */
  datatype System = System(release: Release, status: Status, reading: Option<Release>, log: seq<Call>)

  /** Anyone may edit the release at any time, also between the read and the write
      of a round. Only the executor writes the status. */
  datatype Event = Edit(release: Release) | Read | Write(o: Observation, w: Workload)

  function Begin(r: Release): System {
    System(r, EMPTY_STATUS, None, [])
  }

  /** A changed spec gets a new generation from the API server. */
  function Edited(prior: Release, r: Release): Release {
    r.(generation := if r.plan == prior.plan then prior.generation else prior.generation + 1)
  }

  function Step(sys: System, e: Event): System {
    match e
    case Edit(r) => sys.(release := Edited(sys.release, r))
    case Read => sys.(reading := Some(sys.release))
    case Write(o, w) =>
      if sys.reading.None? then sys
      else
        var r := sys.reading.value;
        var (s, calls) := Do(r, sys.status, o, w);
        sys.(status := s.(observedGeneration := r.generation), reading := None, log := sys.log + calls)
  }

  function Run(sys: System, events: seq<Event>): System {
    if events == [] then sys else Step(Run(sys, events[..|events| - 1]), events[|events| - 1])
  }

  /* ---- Ready is honest ---- */

  /** What the log says about the workload: brought to a batch, and verified there. */
  datatype Stage = Nothing | Upgraded(plan: Plan, batch: int) | Verified(plan: Plan, batch: int)

  function StageAfter(stage: Stage, c: Call): Stage {
    match c
    case Initialize(_) => Nothing
    case UpgradeBatch(p, b, ok) => if ok then Upgraded(p, b) else Nothing
    case EnsureReady(p, b, ok) => if ok && (stage == Upgraded(p, b) || stage == Verified(p, b)) then Verified(p, b) else Nothing
    case Finalize(_) => stage
  }

  function StageOf(log: seq<Call>): Stage {
    if log == [] then Nothing else StageAfter(StageOf(log[..|log| - 1]), log[|log| - 1])
  }

  /** The batch state never claims more than the log supports. */
  predicate Honest(s: Status, stage: Stage) {
    && !s.phase.Initial? && !s.phase.UnknownPhase?
    && (s.phase.NoPhase? || s.phase.Preparing? ==> !s.batchState.Verifying? && !s.batchState.Ready?)
    && (s.batchState.Verifying? ==> s.observedPlan.Some? && stage == Upgraded(s.observedPlan.value, s.currentBatch))
    && (s.batchState.Ready? ==> s.observedPlan.Some? && stage == Verified(s.observedPlan.value, s.currentBatch))
  }

  lemma {:induction false} SyncKeepsHonest(r: Release, s: Status, o: Observation, stage: Stage)
    requires Honest(s, stage)
    ensures Honest(Synced(r, s, o), stage)
  {
  }

  /** Work is done only on a status that has taken in the plan it works on. */
  lemma {:induction false} WorksOnObservedPlan(r: Release, s: Status, o: Observation)
    requires Proceeds(r, s, o) && s.phase.Progressing?
    ensures s.observedPlan == Some(r.plan) && r.plan.partition.Some? && s.currentBatch < |r.plan.batches|
  {
  }

  lemma {:induction false} WorkKeepsHonest(r: Release, s: Status, w: Workload, stage: Stage)
    requires Honest(s, stage)
    requires s.phase.Progressing? ==> s.observedPlan == Some(r.plan)
    ensures var (n, calls) := Executed(r, s, w);
      |calls| <= 1 && Honest(n, if calls == [] then stage else StageAfter(stage, calls[0]))
  {
  }

  lemma {:induction false} DoKeepsHonest(r: Release, s: Status, o: Observation, w: Workload, log: seq<Call>)
    requires Honest(s, StageOf(log))
    ensures var (n, calls) := Do(r, s, o, w); Honest(n, StageOf(log + calls))
  {
    hide StageOf, StageAfter, Honest, Synced, Proceeds, Executed;
    if Proceeds(r, s, o) {
      if s.phase.Progressing? {
        WorksOnObservedPlan(r, s, o);
      }
      WorkKeepsHonest(r, s, w, StageOf(log));
      StageOfAppend(log, Executed(r, s, w).1);
    } else {
      SyncKeepsHonest(r, s, o, StageOf(log));
      StageOfAppend(log, []);
    }
  }

  lemma {:induction false} StageOfAppend(log: seq<Call>, calls: seq<Call>)
    requires |calls| <= 1
    ensures StageOf(log + calls) == if calls == [] then StageOf(log) else StageAfter(StageOf(log), calls[0])
  {
    if calls == [] {
      assert log + calls == log;
    } else {
      assert (log + calls)[..|log + calls| - 1] == log;
    }
  }

  lemma {:induction false} RunKeepsHonest(r: Release, events: seq<Event>)
    ensures var sys := Run(Begin(r), events); Honest(sys.status, StageOf(sys.log))
  {
    hide Do, StageOf;
    if events == [] {
    } else {
      RunKeepsHonest(r, events[..|events| - 1]);
      var sys, e := Run(Begin(r), events[..|events| - 1]), events[|events| - 1];
      if e.Write? && sys.reading.Some? {
        DoKeepsHonest(sys.reading.value, sys.status, e.o, e.w, sys.log);
      }
    }
  }

  /** Position `i` holds the last successful upgrade, to this plan and batch; a
      successful check of it follows at `j`; nothing after `i` disturbs either. */
  ghost predicate VerifiedAt(log: seq<Call>, plan: Plan, batch: int, i: int, j: int) {
    && 0 <= i < j < |log|
    && log[i] == UpgradeBatch(plan, batch, true)
    && log[j] == EnsureReady(plan, batch, true)
    && forall k :: i < k < |log| ==> log[k] == EnsureReady(plan, batch, true) || log[k].Finalize?
  }

  ghost predicate UpgradedAt(log: seq<Call>, plan: Plan, batch: int, i: int) {
    && 0 <= i < |log|
    && log[i] == UpgradeBatch(plan, batch, true)
    && forall k :: i < k < |log| ==> log[k].Finalize?
  }

  ghost predicate WasVerified(log: seq<Call>, plan: Plan, batch: int) {
    exists i, j :: VerifiedAt(log, plan, batch, i, j)
  }

  ghost predicate Means(stage: Stage, log: seq<Call>) {
    match stage
    case Nothing => true
    case Upgraded(p, b) => exists i :: UpgradedAt(log, p, b, i)
    case Verified(p, b) => WasVerified(log, p, b)
  }

  lemma {:induction false} StageMeans(log: seq<Call>)
    ensures Means(StageOf(log), log)
  {
    if log != [] {
      var before, last := log[..|log| - 1], log[|log| - 1];
      StageMeans(before);
      MeansAfter(StageOf(before), before, last);
      assert log == before + [last];
    }
  }

  lemma {:induction false} MeansAfter(stage: Stage, before: seq<Call>, last: Call)
    requires Means(stage, before)
    ensures Means(StageAfter(stage, last), before + [last])
  {
    var log := before + [last];
    match last {
      case Initialize(_) =>
      case UpgradeBatch(p, b, ok) =>
        if ok {
          assert UpgradedAt(log, p, b, |before|);
        }
      case EnsureReady(p, b, ok) =>
        if ok && stage == Upgraded(p, b) {
          var i :| UpgradedAt(before, p, b, i);
          assert VerifiedAt(log, p, b, i, |before|);
        } else if ok && stage == Verified(p, b) {
          var i, j :| VerifiedAt(before, p, b, i, j);
          assert VerifiedAt(log, p, b, i, j);
        }
      case Finalize(_) =>
        match stage {
          case Nothing =>
          case Upgraded(p, b) =>
            var i :| UpgradedAt(before, p, b, i);
            assert UpgradedAt(log, p, b, i);
          case Verified(p, b) =>
            var i, j :| VerifiedAt(before, p, b, i, j);
            assert VerifiedAt(log, p, b, i, j);
        }
    }
  }

  /** Whoever sees Ready with the hash of the plan now in the spec knows: the last
      upgrade of the workload succeeded, was for that very plan and batch, and was
      then found ready; no other upgrade, and no failed check, came after. */
  lemma {:induction false} ReadyIsHonest(r: Release, events: seq<Event>)
    ensures var sys := Run(Begin(r), events);
      sys.status.batchState.Ready? && sys.status.observedPlan == Some(sys.release.plan) ==>
        WasVerified(sys.log, sys.release.plan, sys.status.currentBatch)
  {
    hide Run, StageOf;
    RunKeepsHonest(r, events);
    StageMeans(Run(Begin(r), events).log);
  }

  /* ---- calls are safe ---- */

  predicate ValidPlan(p: Plan) {
    |p.batches| >= 1 && (p.partition.Some? ==> p.partition.value >= 0)
  }

  /** No batch beyond the partition of the plan that was taken in. */
  predicate WithinPartition(s: Status) {
    && (s.observedPlan.None? ==> s.currentBatch == 0)
    && (s.observedPlan.Some? && s.observedPlan.value.partition.Some? && s.observedPlan.value.partition.value >= 0 ==>
          s.currentBatch <= s.observedPlan.value.partition.value)
  }

  predicate BatchInRange(s: Status) {
    s.currentBatch >= 0 && WithinPartition(s)
  }

  /** The batch a workload call works on exists and is within the partition. */
  predicate SafeCall(c: Call) {
    match c
    case UpgradeBatch(p, b, _) => p.partition.Some? && 0 <= b <= p.partition.value && b < |p.batches|
    case EnsureReady(p, b, _) => p.partition.Some? && 0 <= b <= p.partition.value && b < |p.batches|
    case _ => true
  }

  lemma {:induction false} SyncKeepsPartition(r: Release, s: Status, o: Observation)
    requires WithinPartition(s)
    ensures WithinPartition(Synced(r, s, o))
  {
  }

  lemma {:induction false} SyncKeepsRange(r: Release, s: Status, o: Observation)
    requires s.currentBatch >= 0 && ValidPlan(r.plan)
    ensures Synced(r, s, o).currentBatch >= 0
  {
  }

  lemma {:induction false} WorkKeepsRange(r: Release, s: Status, w: Workload)
    requires WithinPartition(s)
    requires s.phase.Progressing? ==>
      s.observedPlan == Some(r.plan) && r.plan.partition.Some? && s.currentBatch < |r.plan.batches|
    ensures var (n, calls) := Executed(r, s, w);
      && WithinPartition(n)
      && (s.currentBatch >= 0 ==> n.currentBatch >= 0)
      && (s.currentBatch >= 0 && ValidPlan(r.plan) ==> forall c :: c in calls ==> SafeCall(c))
  {
  }

  /** Whatever the plans, also negative partitions and plans without batches. */
  lemma {:induction false} DoKeepsPartition(r: Release, s: Status, o: Observation, w: Workload)
    requires WithinPartition(s)
    ensures WithinPartition(Do(r, s, o, w).0)
  {
    hide WithinPartition, Synced, Proceeds, Executed;
    if Proceeds(r, s, o) {
      if s.phase.Progressing? {
        WorksOnObservedPlan(r, s, o);
      }
      WorkKeepsRange(r, s, w);
    } else {
      SyncKeepsPartition(r, s, o);
    }
  }

  lemma {:induction false} DoKeepsRange(r: Release, s: Status, o: Observation, w: Workload)
    requires BatchInRange(s) && ValidPlan(r.plan)
    ensures var (n, calls) := Do(r, s, o, w);
      BatchInRange(n) && forall c :: c in calls ==> SafeCall(c)
  {
    hide WithinPartition, SafeCall, Synced, Proceeds, Executed;
    DoKeepsPartition(r, s, o, w);
    if Proceeds(r, s, o) {
      if s.phase.Progressing? {
        WorksOnObservedPlan(r, s, o);
      }
      WorkKeepsRange(r, s, w);
    } else {
      SyncKeepsRange(r, s, o);
    }
  }

  ghost predicate ValidEdits(r: Release, events: seq<Event>) {
    ValidPlan(r.plan) && forall e :: e in events && e.Edit? ==> ValidPlan(e.release.plan)
  }

  /** With at least one batch and no negative partition in any plan ever written,
      no edit, whenever it comes, makes the executor touch a batch that the plan
      it read does not have or its partition does not allow. */
  lemma {:induction false} CallsAreSafe(r: Release, events: seq<Event>)
    requires ValidEdits(r, events)
    ensures var sys := Run(Begin(r), events);
      && (forall c :: c in sys.log ==> SafeCall(c))
      && BatchInRange(sys.status)
      && ValidPlan(sys.release.plan) && (sys.reading.Some? ==> ValidPlan(sys.reading.value.plan))
  {
    hide Do;
    if events != [] {
      var before, e := events[..|events| - 1], events[|events| - 1];
      assert forall x :: x in before ==> x in events;
      assert e in events;
      CallsAreSafe(r, before);
      var sys := Run(Begin(r), before);
      if e.Write? && sys.reading.Some? {
        DoKeepsRange(sys.reading.value, sys.status, e.o, e.w);
      }
    }
  }

  /** A changed plan is taken in with a batch that exists if and only if the plan has
      batches and, where its partition is used, no negative one. */
  lemma {:induction false} RecalculationInRange(r: Release, s: Status, o: Observation, w: Workload)
    requires IsPlanChanged(r, s) && !IsPlanFinalizing(r, s)
    ensures var n := Do(r, s, o, w).0;
      0 <= n.currentBatch < |r.plan.batches|
      <==> |r.plan.batches| >= 1 && (r.plan.rolloutID == s.observedRolloutID ==> r.plan.partition.value >= 0)
  {
    assert Do(r, s, o, w).0.observedPlan == Some(r.plan);
  }

  /** A changed plan resumes at its partition, or at the last batch if that is beyond the
      list; under another rollout id at the first batch. The batch is upgraded anew, the
      plan is taken in, and no call is made in that round. */
  lemma {:induction false} ChangedPlanResumes(r: Release, s: Status, o: Observation, w: Workload, p: int)
    requires s.phase.Progressing? && s.observedPlan != Some(r.plan)
    requires !r.deleting && r.plan.partition == Some(p)
    ensures var (n, calls) := Do(r, s, o, w);
      && calls == [] && n.phase.Progressing? && n.batchState.Upgrading? && n.readyTime.None?
      && n.observedPlan == Some(r.plan) && n.observedRolloutID == r.plan.rolloutID
      && if r.plan.rolloutID != s.observedRolloutID then n.currentBatch == 0
         else if p < |r.plan.batches| then n.currentBatch == p
         else n.currentBatch == |r.plan.batches| - 1
  {
    assert Do(r, s, o, w).0.observedPlan == Some(r.plan);
  }

  const NO_BATCHES := Release(Plan([], Some(0), "", ""), false, false, 2)
  const SOME_STATUS := EMPTY_STATUS.(phase := Progressing, observedPlan := Some(Plan([Int(1)], Some(0), "", "")), batchState := Ready)

  /** Without batches the recalculated batch is -1, which passes for healthy, and
      the workload is upgraded to batch -1. */
  lemma EmptyPlanIsUnsafe(info: WorkloadInfo, w: Workload)
    requires info.updated == 0 == info.updatedReady
    ensures var o := Seen(Normal, info);
      var s1 := Do(NO_BATCHES, SOME_STATUS, o, w).0;
      s1.currentBatch == -1 && Do(NO_BATCHES, s1, o, w).1 == [UpgradeBatch(NO_BATCHES.plan, -1, w.upgradeOk)]
  {
  }

  /* ---- what the workload says first ---- */

  /** No batch is upgraded or checked on a workload whose status lags behind, whose
      pod template changed, or whose size changed and was not taken in. */
  lemma {:induction false} UnsettledWorkloadIsNotTouched(r: Release, s: Status, o: Observation, w: Workload)
    requires s.phase.Progressing? && o.Seen?
    requires || o.event.StillReconciling? || o.event.PodTemplateChanged?
             || (o.event.ReplicasChanged? && o.info.replicas != s.observedReplicas)
    ensures Do(r, s, o, w).1 == []
  {
  }

  /** After a change of size the batch is upgraded anew, whatever it was: the size is
      taken in and neither Verifying nor Ready survives. */
  lemma {:induction false} ScalingRestartsBatch(r: Release, s: Status, o: Observation, w: Workload)
    requires s.phase.Progressing? && o.Seen? && o.event.ReplicasChanged? && o.info.replicas != s.observedReplicas
    requires !IsPlanFinalizing(r, s) && !IsPlanChanged(r, s) && !IsPlanUnhealthy(r, s)
    ensures var n := Do(r, s, o, w).0;
      n.batchState.Upgrading? && n.observedReplicas == o.info.replicas && n.currentBatch == s.currentBatch
  {
  }

  /** Work in progress is prepared again in two cases only: its batch is lost, or the
      workload rolls back in batches, its roll back was not prepared yet, and the stable
      revision is the one to release. No call is made in that round. */
  lemma {:induction false} PreparesAgainExactlyWhen(r: Release, s: Status, o: Observation, w: Workload)
    requires s.phase.Progressing?
    ensures var (n, calls) := Do(r, s, o, w);
      && (n.phase.Preparing? <==>
            && !r.deleting && r.plan.partition.Some? && s.observedPlan == Some(r.plan)
            && (|| s.currentBatch >= |r.plan.batches|
                || (&& o.Seen? && (o.event.Normal? || o.event.RollbackInBatch?)
                    && r.rollbackInBatch && s.noNeedUpdate.None? && o.info.stableRevision == o.info.updateRevision)))
      && (n.phase.Preparing? ==>
            && calls == [] && n.readyTime.None? && !n.batchState.Verifying? && !n.batchState.Ready?
            && n.currentBatch == if s.currentBatch >= |r.plan.batches| then 0 else s.currentBatch)
  {
    if IsPlanChanged(r, s) && !IsPlanFinalizing(r, s) {
      assert Do(r, s, o, w).0.observedPlan == Some(r.plan);
    }
  }

  /** A new release, and one that lost its batch, is taken in with nothing of what was known
      before: no batch, no revisions, no size, and no counts but those just read. */
  lemma {:induction false} StartsFromNothing(r: Release, s: Status, o: Observation, w: Workload)
    requires !r.deleting && r.plan.partition.Some?
    requires || s.phase.NoPhase?
             || (s.phase.Progressing? && s.observedPlan == Some(r.plan) && s.currentBatch >= |r.plan.batches|)
    ensures var (n, calls) := Do(r, s, o, w);
      && calls == [] && n.phase.Preparing? && n.observedPlan == Some(r.plan)
      && n.currentBatch == 0 && n.batchState.NoState? && n.readyTime.None? && n.noNeedUpdate.None?
      && n.stableRevision == "" == n.updateRevision && n.observedReplicas == -1
      && (!o.Seen? ==> n.updated == 0 == n.updatedReady)
  {
    assert Synced(r, s, o).phase.Preparing?;
  }

  /** A roll back in batches holds the work up until it can be prepared. */
  lemma {:induction false} RollbackWaitsForItsRevision(r: Release, s: Status, o: Observation, w: Workload)
    requires s.phase.Progressing? && o.Seen? && s.noNeedUpdate.None? && !r.deleting && r.plan.partition.Some?
    requires o.event.RollbackInBatch? || (o.event.Normal? && r.rollbackInBatch)
    ensures Do(r, s, o, w).1 == []
  {
  }

  /** Preparing waits for nothing but a stable workload and takes no notice of its size or
      template: the batch stays as it is, and work begins with the baseline that a successful
      initialization wrote. */
  lemma {:induction false} PreparingOnlyInitializes(r: Release, s: Status, o: Observation, w: Workload)
    requires s.phase.Preparing? && !r.deleting && r.plan.partition.Some?
    ensures var (n, calls) := Do(r, s, o, w);
      && n.currentBatch == s.currentBatch && n.batchState == s.batchState && n.readyTime == s.readyTime
      && (calls == [] || calls == [Initialize(w.initializeOk)])
      && (n.phase.Progressing? <==> calls == [Initialize(true)])
      && (calls != [] ==> !o.ReadError? && !o.Gone? && !(o.Seen? && o.event.StillReconciling?))
      && (calls == [] ==> n.stableRevision == s.stableRevision && n.updateRevision == s.updateRevision
                          && n.observedReplicas == s.observedReplicas && n.noNeedUpdate == s.noNeedUpdate)
      && (calls != [] && w.baseline.Some? ==>
            Baseline(n.stableRevision, n.updateRevision, n.observedReplicas) == w.baseline.value)
  {
  }

  /** The counts of a workload that was read are in the status after the round, whatever
      else happens in it, except when the status is started from empty; and so is the
      rollout id of the release. */
  lemma {:induction false} StatusReports(r: Release, s: Status, o: Observation, w: Workload)
    ensures var n := Do(r, s, o, w).0;
      && (o.Seen? ==> n.updated == o.info.updated && n.updatedReady == o.info.updatedReady)
      && (!o.Seen? && !s.phase.NoPhase? && !(s.phase.Progressing? && n.phase.Preparing?) ==>
            n.updated == s.updated && n.updatedReady == s.updatedReady)
      && n.observedRolloutID == r.plan.rolloutID && n.observedPlan.Some?
  {
    SyncReports(r, s, o);
    WorkKeepsReport(s, r, w);
    hide Synced, Executed;
  }

  lemma {:induction false} SyncReports(r: Release, s: Status, o: Observation)
    ensures var n := Synced(r, s, o);
      && (o.Seen? ==> n.updated == o.info.updated && n.updatedReady == o.info.updatedReady)
      && (!o.Seen? && !s.phase.NoPhase? && !(s.phase.Progressing? && n.phase.Preparing?) ==>
            n.updated == s.updated && n.updatedReady == s.updatedReady)
      && n.observedRolloutID == r.plan.rolloutID && n.observedPlan.Some?
  {
  }

  lemma {:induction false} WorkKeepsReport(s: Status, r: Release, w: Workload)
    ensures var n := Executed(r, s, w).0;
      && n.updated == s.updated && n.updatedReady == s.updatedReady
      && n.observedRolloutID == s.observedRolloutID && n.observedPlan == s.observedPlan
  {
  }

  /* ---- batches never go back ---- */

  /** A plan under the given rollout id with `count` batches, its partition one of them
      unless it has none any more. */
  predicate Belongs(p: Plan, id: string, count: nat) {
    p.rolloutID == id && |p.batches| == count && (p.partition.Some? ==> 0 <= p.partition.value < count)
  }

  /** The partition grows or stays, or is taken away for good. */
  predicate Advances(prior: Plan, p: Plan) {
    p.partition.Some? ==> prior.partition.Some? && prior.partition.value <= p.partition.value
  }

  /** All edits of a run stay under one rollout id and advance the partition. */
  predicate Advancing(r: Release, events: seq<Event>, id: string, count: nat) {
    if events == [] then Belongs(r.plan, id, count)
    else
      var before, e := events[..|events| - 1], events[|events| - 1];
      && Advancing(r, before, id, count)
      && (e.Edit? ==> Belongs(e.release.plan, id, count) && Advances(Run(Begin(r), before).release.plan, e.release.plan))
  }

  /** The latest release, the one being worked on, and the one taken in follow each other;
      and no upgrade was for a batch beyond the current one. */
  ghost predicate Climbing(sys: System, id: string, count: nat) {
    var s := sys.status;
    && Belongs(sys.release.plan, id, count)
    && (sys.reading.Some? ==> Belongs(sys.reading.value.plan, id, count) && Advances(sys.reading.value.plan, sys.release.plan))
    && TakenIn(s, sys.release.plan, id, count)
    && (sys.reading.Some? ==> TakenIn(s, sys.reading.value.plan, id, count))
    && Rising(sys.log, s.currentBatch)
  }

  predicate TakenIn(s: Status, p: Plan, id: string, count: nat) {
    && WithinPartition(s)
    && (s.phase.NoPhase? ==> s.observedPlan.None?)
    && (!s.phase.NoPhase? ==> s.observedPlan.Some? && s.observedRolloutID == id)
    && (s.observedPlan.Some? ==> Belongs(s.observedPlan.value, id, count) && Advances(s.observedPlan.value, p))
  }

  /** Upgrades never go back to an earlier batch, and none was for one beyond `top`. */
  ghost predicate Rising(log: seq<Call>, top: int) {
    && (forall j :: 0 <= j < |log| && log[j].UpgradeBatch? ==> log[j].batch <= top)
    && (forall i, j :: 0 <= i < j < |log| && log[i].UpgradeBatch? && log[j].UpgradeBatch? ==> log[i].batch <= log[j].batch)
  }

  lemma {:induction false} SyncKeepsTakenIn(r: Release, s: Status, o: Observation, id: string, count: nat)
    requires TakenIn(s, r.plan, id, count) && Belongs(r.plan, id, count)
    ensures var n := Synced(r, s, o); TakenIn(n, r.plan, id, count) && s.currentBatch <= n.currentBatch
  {
  }

  lemma {:induction false} WorkKeepsTakenIn(r: Release, s: Status, o: Observation, w: Workload, id: string, count: nat)
    requires TakenIn(s, r.plan, id, count) && Proceeds(r, s, o)
    ensures var (n, calls) := Executed(r, s, w);
      && TakenIn(n, r.plan, id, count) && s.currentBatch <= n.currentBatch
      && |calls| <= 1 && (forall c :: c in calls && c.UpgradeBatch? ==> c.batch == s.currentBatch)
  {
    assert !s.phase.NoPhase?;
    if s.phase.Progressing? {
      WorksOnObservedPlan(r, s, o);
    }
    hide Synced, Proceeds, Belongs;
  }

  lemma {:induction false} DoKeepsTakenIn(r: Release, s: Status, o: Observation, w: Workload, id: string, count: nat)
    requires TakenIn(s, r.plan, id, count) && Belongs(r.plan, id, count)
    ensures var (n, calls) := Do(r, s, o, w);
      && TakenIn(n, r.plan, id, count) && s.currentBatch <= n.currentBatch
      && |calls| <= 1 && (forall c :: c in calls && c.UpgradeBatch? ==> c.batch == s.currentBatch)
  {
    hide TakenIn, Belongs, Synced, Executed, Proceeds;
    if Proceeds(r, s, o) {
      WorkKeepsTakenIn(r, s, o, w, id, count);
    } else {
      SyncKeepsTakenIn(r, s, o, id, count);
    }
  }

  lemma {:induction false} StaysTakenIn(s: Status, p: Plan, p': Plan, id: string, count: nat)
    requires TakenIn(s, p, id, count) && Advances(p, p')
    ensures TakenIn(s, p', id, count)
  {
  }

  lemma {:induction false} StepKeepsClimbing(sys: System, e: Event, id: string, count: nat)
    requires Climbing(sys, id, count)
    requires e.Edit? ==> Belongs(e.release.plan, id, count) && Advances(sys.release.plan, e.release.plan)
    ensures Climbing(Step(sys, e), id, count)
  {
    hide Do, TakenIn, Belongs;
    match e {
      case Edit(r) => StaysTakenIn(sys.status, sys.release.plan, r.plan, id, count);
      case Read =>
      case Write(o, w) =>
        if sys.reading.Some? {
          var r := sys.reading.value;
          DoKeepsTakenIn(r, sys.status, o, w, id, count);
          var s := Do(r, sys.status, o, w).0;
          assert TakenIn(s.(observedGeneration := r.generation), r.plan, id, count) by { KeepsGeneration(s, r.generation, r.plan, id, count); }
          StaysTakenIn(s.(observedGeneration := r.generation), r.plan, sys.release.plan, id, count);
        }
    }
  }

  lemma {:induction false} KeepsGeneration(s: Status, generation: int, p: Plan, id: string, count: nat)
    requires TakenIn(s, p, id, count)
    ensures TakenIn(s.(observedGeneration := generation), p, id, count)
  {
  }

  /** Under one rollout id, while the partition only grows and the batches stay as many,
      no upgrade is for an earlier batch than the one before it, through all edits, events
      and failures. */
  lemma {:induction false} BatchesNeverGoBack(r: Release, events: seq<Event>, id: string, count: nat)
    requires Advancing(r, events, id, count)
    ensures var sys := Run(Begin(r), events); Climbing(sys, id, count) && Rising(sys.log, sys.status.currentBatch)
  {
    hide Step, Belongs, Advances, Rising;
    if events == [] {
      BeginsClimbing(r, id, count);
    } else {
      var before := events[..|events| - 1];
      BatchesNeverGoBack(r, before, id, count);
      StepKeepsClimbing(Run(Begin(r), before), events[|events| - 1], id, count);
    }
  }

  lemma {:induction false} BeginsClimbing(r: Release, id: string, count: nat)
    requires Belongs(r.plan, id, count)
    ensures Climbing(Begin(r), id, count)
  {
  }

  /* ---- phase order ---- */

  predicate Ending(s: Status) {
    s.phase.Finalizing? || s.phase.Completed?
  }

  /** Finalizing leads only to Completed, Completed to nothing, and the calls made
      from then on are finalizing calls. */
  lemma {:induction false} EndingIsFinal(sys: System, events: seq<Event>)
    requires Ending(sys.status)
    ensures var t := Run(sys, events);
      && Ending(t.status)
      && (sys.status.phase.Completed? ==> t.status.phase.Completed? && t.log == sys.log)
      && sys.log <= t.log
      && (forall k :: |sys.log| <= k < |t.log| ==> t.log[k].Finalize?)
  {
    if events != [] {
      EndingIsFinal(sys, events[..|events| - 1]);
    }
  }

  /** A release starts to end exactly when it is deleted, its partition is taken away, or
      its workload is gone, found by a round that had no changed plan or lost batch to deal
      with; no call is made in that round. */
  lemma {:induction false} EndsExactlyWhen(r: Release, s: Status, o: Observation, w: Workload)
    requires !Ending(s)
    ensures var (n, calls) := Do(r, s, o, w);
      && (Ending(n) <==>
            || r.deleting || r.plan.partition.None?
            || (&& o.Gone? && !s.phase.NoPhase? && !s.phase.Initial?
                && (s.phase.Progressing? ==> s.observedPlan == Some(r.plan) && s.currentBatch < |r.plan.batches|)))
      && (Ending(n) ==> n.phase.Finalizing? && calls == [])
  {
    hide Refreshed;
    RefreshKeepsPhase(r, SpecialCase(r, s, o).0, o);
  }

  lemma {:induction false} RefreshKeepsPhase(r: Release, n: Status, o: Observation)
    ensures Refreshed(r, n, o).phase == n.phase
  {
  }

  /** And then it completes in the round after the next, at the latest, if finalizing the
      workload succeeds. */
  lemma {:induction false} EndingCompletes(r: Release, s: Status, o: Observation, w: Workload)
    requires Ending(s) && !o.ReadError? && w.finalizeOk
    ensures Do(r, Do(r, s, o, w).0, o, w).0.phase.Completed?
  {
  }

  /* ---- from preparation to completion ---- */

  /** The last initialization so far succeeded. */
  predicate IsPrepared(log: seq<Call>) {
    && log != []
    && var last := log[|log| - 1];
       if last.Initialize? then last.ok else IsPrepared(log[..|log| - 1])
  }

  /** Every upgrade and check was made on a prepared workload. */
  ghost predicate WorksPrepared(log: seq<Call>) {
    forall k :: 0 <= k < |log| && (log[k].UpgradeBatch? || log[k].EnsureReady?) ==> IsPrepared(log[..k])
  }

  /** What the phase says of the calls made: work in progress is prepared, and only a
      successful finalizing call completes a release, the last of all calls. */
  ghost predicate PhaseMeans(s: Status, log: seq<Call>) {
    && WorksPrepared(log)
    && (s.phase.Progressing? ==> IsPrepared(log))
    && (s.phase.Completed? ==> log != [] && log[|log| - 1] == Finalize(true))
  }

  lemma {:induction false} PhaseMoves(r: Release, s: Status, o: Observation, w: Workload)
    ensures var (n, calls) := Do(r, s, o, w);
      && |calls| <= 1
      && (calls == [] ==> (n.phase.Progressing? ==> s.phase.Progressing?) && (n.phase.Completed? ==> s.phase.Completed?))
      && (forall c :: c in calls ==>
            match c
            case Initialize(ok) => !n.phase.Completed? && (n.phase.Progressing? ==> ok)
            case Finalize(ok) => !n.phase.Progressing? && (n.phase.Completed? ==> ok)
            case _ => s.phase.Progressing? && n.phase.Progressing?)
  {
    hide Refreshed;
    RefreshKeepsPhase(r, SpecialCase(r, s, o).0, o);
  }

  lemma {:induction false} CallKeepsPrepared(log: seq<Call>, c: Call)
    requires WorksPrepared(log) && (c.UpgradeBatch? || c.EnsureReady? ==> IsPrepared(log))
    ensures WorksPrepared(log + [c])
    ensures IsPrepared(log + [c]) <==> if c.Initialize? then c.ok else IsPrepared(log)
  {
    assert (log + [c])[..|log|] == log;
    forall k | 0 <= k < |log|
      ensures (log + [c])[..k] == log[..k] && (log + [c])[k] == log[k]
    {
    }
  }

  /** Over every run: no batch is upgraded or checked before the workload was initialized,
      anew since the last failed attempt; and a release completes only with the workload
      finalized, after which nothing is called. */
  lemma {:induction false} PreparedAndFinalized(r: Release, events: seq<Event>)
    ensures var sys := Run(Begin(r), events); PhaseMeans(sys.status, sys.log)
  {
    hide Do, WorksPrepared, IsPrepared;
    if events == [] {
      assert WorksPrepared([]) by { NothingWorks(); }
    } else {
      PreparedAndFinalized(r, events[..|events| - 1]);
      var sys, e := Run(Begin(r), events[..|events| - 1]), events[|events| - 1];
      if e.Write? && sys.reading.Some? {
        PhaseMoves(sys.reading.value, sys.status, e.o, e.w);
        var calls := Do(sys.reading.value, sys.status, e.o, e.w).1;
        if calls != [] {
          assert calls == [calls[0]] && calls[0] in calls;
          CallKeepsPrepared(sys.log, calls[0]);
        } else {
          assert sys.log + calls == sys.log;
        }
      }
    }
  }

  lemma NothingWorks()
    ensures WorksPrepared([])
  {
  }

  /* ---- progress ---- */

  /** Nothing disturbs the release: a plan whose partition is one of its batches,
      not being deleted or rolled back, and a workload at rest. */
  predicate Undisturbed(r: Release) {
    && !r.deleting && !r.rollbackInBatch
    && r.plan.partition.Some? && 0 <= r.plan.partition.value < |r.plan.batches|
  }

  predicate Succeeds(w: Workload) {
    w.initializeOk && w.upgradeOk && w.ensureOk
  }

  function Round(r: Release, s: Status, info: WorkloadInfo, w: Workload): Status {
    Do(r, s, Seen(Normal, info), w).0.(observedGeneration := r.generation)
  }

  function Rounds(r: Release, s: Status, info: WorkloadInfo, ws: seq<Workload>): Status
    decreases ws
  {
    if ws == [] then s else Rounds(r, Round(r, s, info, ws[0]), info, ws[1..])
  }

  function Rank(b: BatchState): nat {
    if b.Ready? then 0 else if b.Verifying? then 1 else 2
  }

  /** Rounds of work ahead, each counted twice, and one more if the status is to
      be refreshed first. */
  function Ahead(r: Release, s: Status, info: WorkloadInfo): int
    requires r.plan.partition.Some?
  {
    var p := r.plan.partition.value;
    var work :=
      if s.phase.Progressing? then
        if s.observedPlan == Some(r.plan) then 3 * (p - s.currentBatch) + Rank(s.batchState) else 3 * p + 3
      else if s.phase.NoPhase? then 3 * p + 5
      else 3 * p + 4;
    2 * work + (if Refreshed(r, s, Seen(Normal, info)) == s then 0 else 1)
  }

  /** At the partition, ready, and with nothing to refresh. */
  predicate Rested(r: Release, s: Status, info: WorkloadInfo) {
    && s.phase.Progressing? && s.batchState.Ready?
    && r.plan.partition == Some(s.currentBatch)
    && s.observedPlan == Some(r.plan)
    && Refreshed(r, s, Seen(Normal, info)) == s
  }

  lemma {:induction false} SyncAdvances(r: Release, s: Status, info: WorkloadInfo)
    requires Undisturbed(r) && BatchInRange(s) && !Ending(s)
    requires !Proceeds(r, s, Seen(Normal, info))
    ensures var s' := Synced(r, s, Seen(Normal, info)).(observedGeneration := r.generation);
      && BatchInRange(s') && !Ending(s') && !Rested(r, s, info)
      && Ahead(r, s', info) < Ahead(r, s, info)
  {
  }

  lemma {:induction false} WorkAdvances(r: Release, s: Status, info: WorkloadInfo, w: Workload)
    requires Undisturbed(r) && Succeeds(w) && BatchInRange(s) && !Ending(s)
    requires Proceeds(r, s, Seen(Normal, info))
    ensures var s' := Executed(r, s, w).0.(observedGeneration := r.generation);
      && BatchInRange(s') && !Ending(s')
      && (if Rested(r, s, info) then Rested(r, s', info) else Ahead(r, s', info) < Ahead(r, s, info))
  {
    WorksOnPlan(r, s, info);
  }

  lemma {:induction false} WorksOnPlan(r: Release, s: Status, info: WorkloadInfo)
    requires Proceeds(r, s, Seen(Normal, info))
    ensures s.phase.Progressing? ==>
      s.observedPlan == Some(r.plan) && r.plan.partition.Some? && s.currentBatch < |r.plan.batches|
    ensures Refreshed(r, s, Seen(Normal, info)) == s
    ensures !s.phase.NoPhase?
  {
  }

  lemma {:induction false} AheadMeans(r: Release, s: Status, info: WorkloadInfo)
    requires Undisturbed(r) && BatchInRange(s) && !Ending(s)
    ensures Ahead(r, s, info) >= 0
    ensures Rested(r, s, info) <==> Ahead(r, s, info) == 0
  {
    hide Refreshed;
  }

  lemma {:induction false} RoundAdvances(r: Release, s: Status, info: WorkloadInfo, w: Workload)
    requires Undisturbed(r) && Succeeds(w) && BatchInRange(s) && !Ending(s)
    ensures var s' := Round(r, s, info, w);
      && BatchInRange(s') && !Ending(s')
      && Ahead(r, s, info) >= 0
      && (Rested(r, s, info) <==> Ahead(r, s, info) == 0)
      && (if Rested(r, s, info) then Rested(r, s', info) else Ahead(r, s', info) < Ahead(r, s, info))
  {
    hide Ahead, Rested, BatchInRange, Synced, Executed, Proceeds;
    AheadMeans(r, s, info);
    if Proceeds(r, s, Seen(Normal, info)) {
      WorkAdvances(r, s, info, w);
    } else {
      SyncAdvances(r, s, info);
    }
  }

  /** Undisturbed work reaches the partition and stays there, ready, from every
      state a run can leave behind. */
  lemma {:induction false} WorkReachesPartition(r: Release, s: Status, info: WorkloadInfo, ws: seq<Workload>)
    requires Undisturbed(r) && BatchInRange(s) && !Ending(s)
    requires forall w :: w in ws ==> Succeeds(w)
    requires |ws| >= Ahead(r, s, info)
    ensures Rested(r, Rounds(r, s, info, ws), info)
    decreases |ws|
  {
    hide Round, Ahead, Rested;
    if ws == [] {
      RoundAdvances(r, s, info, Workload(None, None, true, true, true, true, 0));
    } else {
      RoundAdvances(r, s, info, ws[0]);
      var s' := Round(r, s, info, ws[0]);
      RoundAdvances(r, s', info, ws[0]);
      WorkReachesPartition(r, s', info, ws[1..]);
    }
  }

  /** A partition beyond the last batch is never reached: every round changes the
      status, for ever. */
  lemma {:induction false} OverlongPartitionNeverRests(r: Release, s: Status, info: WorkloadInfo, w: Workload)
    requires !r.deleting && !r.rollbackInBatch
    requires r.plan.partition.Some? && r.plan.partition.value >= |r.plan.batches|
    requires Succeeds(w) && !Ending(s)
    ensures Do(r, s, Seen(Normal, info), w).0 != s
  {
  }
}
