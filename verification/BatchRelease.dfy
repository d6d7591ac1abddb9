/** The BatchRelease executor (batchrelease_executor.go, batchrelease_status.go):
    one call of `Do` reads a release with its status, makes at most one kind of
    workload call, and returns the next status. The functions give that status;
    the class assigns it field by field, as the executor does.

    Plans stand for their own hashes: the hash is taken to be injective. */
module BatchRelease {
  import opened Arithmetic

  datatype Phase = NoPhase | Initial | Preparing | Progressing | Finalizing | Completed | UnknownPhase

  datatype BatchState = NoState | Upgrading | Verifying | Ready | UnknownState

  /** Everything in `spec.releasePlan`; `settings` is the rest of it. */
  datatype Plan = Plan(batches: seq<IntOrString>, partition: Option<int>, rolloutID: string, settings: string)

  datatype Release = Release(plan: Plan, deleting: bool, rollbackInBatch: bool, generation: int)

  datatype Status = Status(
    phase: Phase,
    observedGeneration: int,
    observedPlan: Option<Plan>,
    observedRolloutID: string,
    observedReplicas: int,
    stableRevision: string,
    updateRevision: string,
    currentBatch: int,
    batchState: BatchState,
    readyTime: Option<int>,
    updated: int,
    updatedReady: int,
    noNeedUpdate: Option<int>)

  datatype WorkloadEvent = Normal | StillReconciling | ReplicasChanged | RollbackInBatch | PodTemplateChanged

  datatype WorkloadInfo = WorkloadInfo(replicas: int, updated: int, updatedReady: int, stableRevision: string, updateRevision: string)

  /** What `SyncWorkloadInformation` found: nothing because the release is being
      deleted, no workload, a read error, or a workload. */
  datatype Observation = Skipped | Gone | ReadError | Seen(event: WorkloadEvent, info: WorkloadInfo)

  /** How the workload calls of this round will go, and what they write into the
      status on the way: `Initialize` its baseline, both it and `UpgradeBatch` the
      number of pods that need no update. */
  datatype Baseline = Baseline(stableRevision: string, updateRevision: string, replicas: int)

  datatype Workload = Workload(
    baseline: Option<Baseline>,
    noNeedUpdate: Option<int>,
    initializeOk: bool,
    upgradeOk: bool,
    ensureOk: bool,
    finalizeOk: bool,
    now: int)

  /** A workload call, with the plan and batch it was made for. */
  datatype Call =
    | Initialize(ok: bool)
    | UpgradeBatch(plan: Plan, batch: int, ok: bool)
    | EnsureReady(plan: Plan, batch: int, ok: bool)
    | Finalize(ok: bool)

  const EMPTY_STATUS := Status(NoPhase, 0, None, "", 0, "", "", 0, NoState, None, 0, 0, None)

  /* ---- the status predicates ---- */

  predicate IsPlanCompleted(s: Status) {
    s.phase.Completed?
  }

  predicate IsPlanFinalizing(r: Release, s: Status) {
    r.deleting || s.phase.Finalizing? || r.plan.partition.None?
  }

  predicate IsPlanChanged(r: Release, s: Status) {
    s.observedPlan != Some(r.plan) && s.phase.Progressing?
  }

  predicate IsPlanUnhealthy(r: Release, s: Status) {
    s.currentBatch >= |r.plan.batches| && s.phase.Progressing?
  }

  predicate IsWorkloadGone(o: Observation, s: Status) {
    o.Gone? && !s.phase.Initial? && !s.phase.NoPhase?
  }

  predicate IsScaling(o: Observation, s: Status) {
    o.Seen? && o.event.ReplicasChanged? && s.phase.Progressing?
  }

  predicate IsRevisionChanged(o: Observation, s: Status) {
    o.Seen? && o.event.PodTemplateChanged? && s.phase.Progressing?
  }

  predicate IsUnstable(o: Observation) {
    o.Seen? && o.event.StillReconciling?
  }

  /** A roll back is meant, by the workload or the annotation; only a seen
      workload can be asked whether it is prepared. */
  predicate IsRollbackInBatch(o: Observation, r: Release, s: Status) {
    o.Seen? && (o.event.RollbackInBatch? || r.rollbackInBatch) && s.noNeedUpdate.None? && s.phase.Progressing?
  }

  predicate IsRollbackSatisfied(o: Observation, r: Release)
    requires o.Seen?
  {
    o.info.stableRevision == o.info.updateRevision && r.rollbackInBatch
  }

  predicate IsPartitioned(r: Release, s: Status) {
    r.plan.partition.Some? && r.plan.partition.value <= s.currentBatch
  }

  /* ---- the status transitions ---- */

  function Reset(s: Status): Status {
    s.(phase := Preparing, stableRevision := "", updateRevision := "", observedPlan := None, observedReplicas := -1,
       currentBatch := 0, batchState := NoState, readyTime := None, updated := 0, updatedReady := 0, noNeedUpdate := None)
  }

  function Initialized(s: Status): Status {
    if s.phase.NoPhase? then Reset(s) else s
  }

  function Recalculated(r: Release, s: Status, n: Status): Status {
    var sameRollout := r.plan.partition.Some? && r.plan.rolloutID == s.observedRolloutID;
    n.(readyTime := None,
       currentBatch := if sameRollout then Min(r.plan.partition.value, |r.plan.batches| - 1) else 0,
       observedRolloutID := r.plan.rolloutID,
       batchState := Upgrading,
       observedPlan := Some(r.plan))
  }

  function RestartedBatch(n: Status): Status {
    n.(readyTime := None, batchState := Upgrading)
  }

  function Refreshed(r: Release, n: Status, o: Observation): Status {
    var n1 := if o.Seen? then n.(updated := o.info.updated, updatedReady := o.info.updatedReady) else n;
    var n2 := if n1.observedPlan.None? then n1.(observedPlan := Some(r.plan)) else n1;
    n2.(observedRolloutID := r.plan.rolloutID)
  }

  /** The special cases of `syncStatusBeforeExecuting`, in their order, and
      whether the case itself ends the round. */
  function SpecialCase(r: Release, s: Status, o: Observation): (Status, bool) {
    var n := Initialized(s);
    if IsPlanCompleted(s) then (n, true)
    else if IsPlanFinalizing(r, s) then (n.(phase := Finalizing), false)
    else if IsPlanChanged(r, s) then (Recalculated(r, s, n), false)
    else if IsPlanUnhealthy(r, s) then (Reset(EMPTY_STATUS), false)
    else if o.ReadError? then (n, false)
    else if IsWorkloadGone(o, s) then (n.(phase := Finalizing), false)
    else if IsScaling(o, s) then (RestartedBatch(n).(observedReplicas := o.info.replicas), false)
    else if IsRevisionChanged(o, s) then (n.(updateRevision := o.info.updateRevision), true)
    else if IsUnstable(o) then (n, true)
    else if IsRollbackInBatch(o, r, s) then
      if IsRollbackSatisfied(o, r) then
        (RestartedBatch(n).(phase := Preparing, updateRevision := o.info.updateRevision), false)
      else (n, true)
    else (n, false)
  }

  function Synced(r: Release, s: Status, o: Observation): Status {
    Refreshed(r, SpecialCase(r, s, o).0, o)
  }

  /** Work is done only in a round that neither changed the status nor failed to
      read the workload. */
  predicate Proceeds(r: Release, s: Status, o: Observation) {
    !SpecialCase(r, s, o).1 && !o.ReadError? && Synced(r, s, o) == s
  }

  function Moved(r: Release, n: Status): Status {
    var next := if r.plan.partition.None? || r.plan.partition.value > n.currentBatch then n.currentBatch + 1 else n.currentBatch;
    n.(currentBatch := next, batchState := Upgrading)
  }

  function Progressed(r: Release, n: Status, w: Workload): (Status, Call) {
    match n.batchState
    case Verifying =>
      (if w.ensureOk then n.(readyTime := Some(w.now), batchState := Ready) else n.(batchState := Upgrading),
       EnsureReady(r.plan, n.currentBatch, w.ensureOk))
    case Ready =>
      (if !w.ensureOk then RestartedBatch(n) else if !IsPartitioned(r, n) then Moved(r, n) else n,
       EnsureReady(r.plan, n.currentBatch, w.ensureOk))
    case _ =>
      (n.(batchState := if w.upgradeOk then Verifying else Upgrading,
          noNeedUpdate := if w.noNeedUpdate.Some? then w.noNeedUpdate else n.noNeedUpdate),
       UpgradeBatch(r.plan, n.currentBatch, w.upgradeOk))
  }

  function Prepared(n: Status, w: Workload): Status {
    var n1 := if w.baseline.Some?
              then n.(stableRevision := w.baseline.value.stableRevision, updateRevision := w.baseline.value.updateRevision,
                      observedReplicas := w.baseline.value.replicas)
              else n;
    n1.(phase := if w.initializeOk then Progressing else Preparing,
        noNeedUpdate := if w.initializeOk && w.noNeedUpdate.Some? then w.noNeedUpdate else n.noNeedUpdate)
  }

  /** `executeBatchReleasePlan`. */
  function Executed(r: Release, n: Status, w: Workload): (Status, seq<Call>) {
    match n.phase
    case Progressing => var (m, call) := Progressed(r, n, w); (m, [call])
    case Finalizing => (if w.finalizeOk then n.(phase := Completed) else n, [Finalize(w.finalizeOk)])
    case Completed => (n, [])
    case _ => (Prepared(n, w), [Initialize(w.initializeOk)])
  }

  /** `Do`: one round on a release and its status. */
  function Do(r: Release, s: Status, o: Observation, w: Workload): (Status, seq<Call>) {
    if Proceeds(r, s, o) then Executed(r, s, w) else (Synced(r, s, o), [])
  }

  /* ---- the executor ---- */

  /** The status under construction in a round, `newStatus` in the source. */
  class NewStatus {
    var phase: Phase
    var observedGeneration: int
    var observedPlan: Option<Plan>
    var observedRolloutID: string
    var observedReplicas: int
    var stableRevision: string
    var updateRevision: string
    var currentBatch: int
    var batchState: BatchState
    var readyTime: Option<int>
    var updated: int
    var updatedReady: int
    var noNeedUpdate: Option<int>

    /** A deep copy of a status. */
    constructor (s: Status)
      ensures Value() == s
    {
      phase, observedGeneration, observedPlan, observedRolloutID := s.phase, s.observedGeneration, s.observedPlan, s.observedRolloutID;
      observedReplicas, stableRevision, updateRevision := s.observedReplicas, s.stableRevision, s.updateRevision;
      currentBatch, batchState, readyTime := s.currentBatch, s.batchState, s.readyTime;
      updated, updatedReady, noNeedUpdate := s.updated, s.updatedReady, s.noNeedUpdate;
    }

    function Value(): Status
      reads this
    {
      Status(phase, observedGeneration, observedPlan, observedRolloutID, observedReplicas, stableRevision, updateRevision,
             currentBatch, batchState, readyTime, updated, updatedReady, noNeedUpdate)
    }

    /** The part of the status about the current batch. */
    method ResetCanaryStatus()
      modifies this
      ensures Value() == old(Value()).(currentBatch := 0, batchState := NoState, readyTime := None,
                                       updated := 0, updatedReady := 0, noNeedUpdate := None)
    {
      currentBatch, batchState, readyTime := 0, NoState, None;
      updated, updatedReady, noNeedUpdate := 0, 0, None;
    }

    method ResetStatus()
      modifies this
      ensures Value() == Reset(old(Value()))
    {
      phase := Preparing;
      stableRevision, updateRevision := "", "";
      observedPlan := None;
      observedReplicas := -1;
      ResetCanaryStatus();
    }

    method SignalRestartAll()
      modifies this
      ensures Value() == Reset(EMPTY_STATUS)
    {
      observedGeneration, observedRolloutID := 0, "";
      ResetStatus();
    }

    method SignalRestartBatch()
      modifies this
      ensures Value() == RestartedBatch(old(Value()))
    {
      readyTime := None;
      batchState := Upgrading;
    }

    method SignalRecalculate(r: Release, s: Status)
      modifies this
      ensures Value() == Recalculated(r, s, old(Value()))
    {
      var batch := 0;
      if r.plan.partition.Some? && r.plan.rolloutID == s.observedRolloutID {
        batch := Min(r.plan.partition.value, |r.plan.batches| - 1);
      }
      readyTime := None;
      currentBatch := batch;
      observedRolloutID := r.plan.rolloutID;
      batchState := Upgrading;
      observedPlan := Some(r.plan);
    }

    method RefreshStatus(r: Release, o: Observation)
      modifies this
      ensures Value() == Refreshed(r, old(Value()), o)
    {
      if o.Seen? {
        updated, updatedReady := o.info.updated, o.info.updatedReady;
      }
      if observedPlan.None? {
        observedPlan := Some(r.plan);
      }
      observedRolloutID := r.plan.rolloutID;
    }

    method SyncStatusBeforeExecuting(r: Release, s: Status, o: Observation) returns (stop: bool)
      requires Value() == Initialized(s)
      modifies this
      ensures Value() == Synced(r, s, o)
      ensures !stop <==> Proceeds(r, s, o)
    {
      stop := false;
      if IsPlanCompleted(s) {
        stop := true;
      } else if IsPlanFinalizing(r, s) {
        phase := Finalizing;
      } else if IsPlanChanged(r, s) {
        SignalRecalculate(r, s);
      } else if IsPlanUnhealthy(r, s) {
        SignalRestartAll();
      } else if o.ReadError? {
      } else if IsWorkloadGone(o, s) {
        phase := Finalizing;
      } else if IsScaling(o, s) {
        SignalRestartBatch();
        observedReplicas := o.info.replicas;
      } else if IsRevisionChanged(o, s) {
        updateRevision := o.info.updateRevision;
        stop := true;
      } else if IsUnstable(o) {
        stop := true;
      } else if IsRollbackInBatch(o, r, s) {
        if IsRollbackSatisfied(o, r) {
          SignalRestartBatch();
          phase := Preparing;
          updateRevision := o.info.updateRevision;
        } else {
          stop := true;
        }
      }
      RefreshStatus(r, o);
      stop := stop || o.ReadError? || Value() != s;
    }

    method MoveToNextBatch(r: Release)
      modifies this
      ensures Value() == Moved(r, old(Value()))
    {
      if r.plan.partition.None? || r.plan.partition.value > currentBatch {
        currentBatch := currentBatch + 1;
      }
      batchState := Upgrading;
    }

    method ProgressBatches(r: Release, s: Status, w: Workload) returns (call: Call)
      requires Value() == s
      modifies this
      ensures (Value(), call) == Progressed(r, s, w)
    {
      match batchState {
        case Verifying =>
          call := EnsureReady(r.plan, currentBatch, w.ensureOk);
          if w.ensureOk {
            readyTime := Some(w.now);
            batchState := Ready;
          } else {
            batchState := Upgrading;
          }
        case Ready =>
          call := EnsureReady(r.plan, currentBatch, w.ensureOk);
          if !w.ensureOk {
            readyTime := None;
            batchState := Upgrading;
          } else if !IsPartitioned(r, s) {
            MoveToNextBatch(r);
          }
        case _ =>
          call := UpgradeBatch(r.plan, currentBatch, w.upgradeOk);
          batchState := Upgrading;
          if w.noNeedUpdate.Some? {
            noNeedUpdate := w.noNeedUpdate;
          }
          if w.upgradeOk {
            batchState := Verifying;
          }
      }
    }

    method ExecuteBatchReleasePlan(r: Release, s: Status, w: Workload) returns (calls: seq<Call>)
      requires Value() == s
      modifies this
      ensures (Value(), calls) == Executed(r, s, w)
    {
      match phase {
        case Progressing =>
          var call := ProgressBatches(r, s, w);
          calls := [call];
        case Finalizing =>
          calls := [Finalize(w.finalizeOk)];
          if w.finalizeOk {
            phase := Completed;
          }
        case Completed =>
          calls := [];
        case _ =>
          phase := Preparing;
          calls := [Initialize(w.initializeOk)];
          if w.baseline.Some? {
            stableRevision, updateRevision := w.baseline.value.stableRevision, w.baseline.value.updateRevision;
            observedReplicas := w.baseline.value.replicas;
          }
          if w.initializeOk {
            if w.noNeedUpdate.Some? {
              noNeedUpdate := w.noNeedUpdate;
            }
            phase := Progressing;
          }
      }
    }
  }

  /** `Executor.Do`. */
  method RunRound(r: Release, s: Status, o: Observation, w: Workload) returns (next: Status, calls: seq<Call>)
    ensures (next, calls) == Do(r, s, o, w)
  {
    var n := new NewStatus(s);
    if s.phase.NoPhase? {
      n.ResetStatus();
    }
    var stop := n.SyncStatusBeforeExecuting(r, s, o);
    calls := [];
    if !stop {
      calls := n.ExecuteBatchReleasePlan(r, s, w);
    }
    next := n.Value();
  }
}
