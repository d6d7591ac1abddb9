/** The rollout controller while a rollout is progressing (rollout_progressing.go,
    rollout_canary.go, rollout_bluegreen.go, rollout_status.go,
    rollout_releaseManager.go): a machine over the current step and its state,
    which drives a BatchRelease and follows edits of the step list.

    The functions give the status and the writes of a round; the class in
    `RolloutController` assigns the status field by field. The two release managers differ in few branches,
    chosen here by the style. A strategy without its pauses stands for its hash. */
module Rollout {
  import opened Arithmetic
  import BatchRelease

  datatype Style = Canary | Partition | BlueGreen

  /** `routed`: the step sets a traffic weight or header matches. */
  datatype Step = Step(replicas: IntOrString, routed: bool, pause: Option<int>)

  datatype Strategy = Strategy(style: Style, deployment: bool, steps: seq<Step>, settings: string, rollbackInBatch: bool, paused: bool)

  datatype Reason = Initializing | InRolling | Paused | Finalising | Cancelling

  datatype StepState = StepInit | StepUpgrade | StepTrafficRouting | StepMetricsAnalysis | StepPaused | StepReady | StepCompleted

  datatype Status = Status(
    reason: Reason,
    step: int,
    next: int,
    state: StepState,
    hash: Option<Strategy>,
    revision: string,
    rolloutID: string,
    updated: int)

  datatype Workload = Workload(replicas: int, revision: string, rolloutID: string, inRollback: bool, rollbackInBatches: bool)

  /** How a call of the traffic manager ended. */
  datatype Answer = Done | Retry | Failed

  /** How a read of the BatchRelease ended. */
  datatype Fetched = Missing | Unreadable | Found(release: BatchRelease.Release, status: BatchRelease.Status)

  /** Everything a round learns from outside: the workload, two reads of the
      BatchRelease, and how its calls go. */
  datatype Inputs = Inputs(
    workload: Workload,
    first: Fetched,
    second: Fetched,
    writeOk: bool,
    cleanUp: Answer,
    restoreStable: Answer,
    patchStable: Answer,
    route: Answer,
    reset: Answer,
    initialize: Answer,
    canaryService: bool,
    pauseOver: bool)

  datatype Write =
    | PatchRolloutID(id: string)
    | Create(plan: BatchRelease.Plan, rollbackInBatch: bool)
    | Update(plan: BatchRelease.Plan, rollbackInBatch: bool)

  /** A round stores a status, or ends in an error, or in a panic; the writes to
      the BatchRelease were made in any case. */
  datatype Verdict = Stored(status: Status) | Errored | Panicked

  type Outcome = (Verdict, seq<Write>)

  function HashOf(st: Strategy): Strategy {
    st.(steps := seq(|st.steps|, i requires 0 <= i < |st.steps| => st.steps[i].(pause := None)),
        deployment := false, rollbackInBatch := false, paused := false)
  }

  predicate RealPartition(st: Strategy) {
    !st.style.BlueGreen? && !(st.deployment && st.style.Canary?)
  }

  /** `NextBatchIndex`. */
  function NextIndex(st: Strategy, step: int): int {
    if step >= |st.steps| then -1 else step + 1
  }

  predicate HasStep(st: Strategy, step: int) {
    1 <= step <= |st.steps|
  }

  /* ---- jumps ---- */

  predicate Jumps(st: Strategy, s: Status) {
    s.next != NextIndex(st, s.step) && HasStep(st, s.next)
  }

  function Jumped(st: Strategy, s: Status, replicas: int): Status
    requires HasStep(st, s.next)
  {
    s.(step := s.next,
       next := NextIndex(st, s.next),
       state := if Scaled(st.steps[s.next - 1].replicas, replicas, true) == s.updated then StepTrafficRouting else StepInit)
  }

  /* ---- the upgrade of a step ---- */

  /** `createBatchRelease`: the plan of a step. */
  function PlanOf(st: Strategy, rolloutID: string, step: int): BatchRelease.Plan {
    BatchRelease.Plan(seq(|st.steps|, i requires 0 <= i < |st.steps| => st.steps[i].replicas), Some(step - 1), rolloutID, st.settings)
  }

  predicate WantsRollback(st: Strategy, w: Workload) {
    w.inRollback && st.rollbackInBatch
  }

  datatype Upgraded = UpgradeFailed | NotYet | Upgraded

  /** The release is the wanted one, the executor has taken it in, and it reports
      the batch of this step, or a later one, ready. */
  predicate Reports(st: Strategy, w: Workload, step: int, f: Fetched) {
    && f.Found?
    && f.release.plan == PlanOf(st, w.rolloutID, step)
    && f.release.rollbackInBatch == WantsRollback(st, w)
    && f.status.observedPlan == Some(f.release.plan)
    && f.release.generation == f.status.observedGeneration
    && f.status.batchState.Ready?
    && f.status.currentBatch + 1 >= step
  }

  function CanaryUpgrade(st: Strategy, step: int, inp: Inputs): (Upgraded, seq<Write>) {
    var w := inp.workload;
    var plan, rollback := PlanOf(st, w.rolloutID, step), WantsRollback(st, w);
    match inp.second
    case Unreadable => (UpgradeFailed, [])
    case Missing => if inp.writeOk then (NotYet, [Create(plan, rollback)]) else (UpgradeFailed, [])
    case Found(r, _) =>
      if r.plan != plan || r.rollbackInBatch != rollback then
        if inp.writeOk then (NotYet, [Update(plan, rollback)]) else (UpgradeFailed, [])
      else (if Reports(st, w, step, inp.second) then Upgraded else NotYet, [])
  }

  /** All stable pods are replaced in this step, so its traffic was routed before. */
  predicate SkipsRouting(st: Strategy, step: Step, w: Workload) {
    !st.style.BlueGreen? && RealPartition(st) && Scaled(step.replicas, w.replicas, true) >= w.replicas
  }

  function UpgradeStep(st: Strategy, s: Status, inp: Inputs): Outcome
    requires HasStep(st, s.step)
  {
    var (result, writes) := CanaryUpgrade(st, s.step, inp);
    match result
    case UpgradeFailed => (Errored, writes)
    case NotYet => (Stored(s), writes)
    case Upgraded =>
      (Stored(s.(state := if SkipsRouting(st, st.steps[s.step - 1], inp.workload) then StepMetricsAnalysis else StepTrafficRouting)),
       writes)
  }

  /** What comes before the first state of a step is left: calls of the traffic
      manager, each of which must be done. */
  function BeforeUpgrade(st: Strategy, s: Status, inp: Inputs): Answer
    requires HasStep(st, s.step)
  {
    var step := st.steps[s.step - 1];
    var restore := if SkipsRouting(st, step, inp.workload) then inp.restoreStable else Done;
    var patch := if s.step == 1 && (inp.canaryService || st.style.BlueGreen?) then inp.patchStable else Done;
    if !step.routed then Done else if !restore.Done? then restore else patch
  }

  predicate PauseOver(st: Strategy, s: Status, inp: Inputs)
    requires HasStep(st, s.step)
  {
    var step := st.steps[s.step - 1];
    if !st.style.BlueGreen? && s.step == |st.steps| && step.replicas == Percent(100) then true
    else step.pause.Some? && inp.pauseOver
  }

  function RunStep(st: Strategy, s: Status, inp: Inputs): Outcome
    requires HasStep(st, s.step)
  {
    match s.state
    case StepInit =>
      if !st.steps[s.step - 1].routed && !st.style.BlueGreen? then (Stored(s.(state := StepUpgrade)), [])
      else (match BeforeUpgrade(st, s, inp)
            case Failed => (Errored, [])
            case Retry => (Stored(s), [])
            case Done => UpgradeStep(st, s.(state := StepUpgrade), inp))
    case StepUpgrade => UpgradeStep(st, s, inp)
    case StepTrafficRouting =>
      (match inp.route
       case Failed => (Errored, [])
       case Retry => (Stored(s), [])
       case Done => (Stored(s.(state := StepMetricsAnalysis)), []))
    case StepMetricsAnalysis => (Stored(s.(state := StepPaused)), [])
    case StepPaused => (Stored(if PauseOver(st, s, inp) then s.(state := StepReady) else s), [])
    case StepReady =>
      (Stored(if |st.steps| > s.step then s.(step := s.step + 1, next := NextIndex(st, s.step + 1), state := StepInit)
              else s.(state := StepCompleted)), [])
    case StepCompleted => (Stored(s), [])
  }

  /** `runCanary` after the status of the BatchRelease was taken over. */
  function RunSynced(st: Strategy, s: Status, inp: Inputs): Outcome {
    if Jumps(st, s) then (Stored(Jumped(st, s, inp.workload.replicas)), [])
    else if !HasStep(st, s.step) then (Panicked, [])
    else if st.steps[s.step - 1].routed || inp.cleanUp.Done? then RunStep(st, s, inp)
    else if inp.cleanUp.Failed? then (Errored, [])
    else (Stored(s), [])
  }

  function Synced(s: Status, f: Fetched): Status {
    if f.Found? then s.(updated := f.status.updated) else s
  }

  predicate NeedsRolloutID(s: Status, f: Fetched) {
    f.Found? && s.rolloutID != f.release.plan.rolloutID
  }

  function RunCanary(st: Strategy, s: Status, inp: Inputs): Outcome {
    if inp.first.Unreadable? then (Errored, [])
    else if !NeedsRolloutID(s, inp.first) then RunSynced(st, Synced(s, inp.first), inp)
    else if !inp.writeOk then (Errored, [])
    else
      var (verdict, writes) := RunSynced(st, Synced(s, inp.first), inp);
      (verdict, [PatchRolloutID(s.rolloutID)] + writes)
  }

  /* ---- a changed plan ---- */

  predicate Covers(st: Strategy, i: int, released: int, replicas: int)
    requires 0 <= i < |st.steps|
  {
    released <= Scaled(st.steps[i].replicas, replicas, true)
  }

  /** The first covering step in a given order from place `k` on, or the last one
      of the order. */
  function FirstCovering(st: Strategy, order: seq<int>, k: nat, released: int, replicas: int): int
    requires k <= |order| && forall k :: 0 <= k < |order| ==> 0 <= order[k] < |st.steps|
    decreases |order| - k
  {
    if k == |order| then 0
    else if k + 1 == |order| || Covers(st, order[k], released, replicas) then order[k] + 1
    else FirstCovering(st, order, k + 1, released, replicas)
  }

  function Others(n: nat, current: int): (r: seq<int>)
    ensures forall k :: 0 <= k < |r| ==> 0 <= r[k] < n && r[k] != current
  {
    if n == 0 then [] else if n - 1 == current then Others(n - 1, current) else Others(n - 1, current) + [n - 1]
  }

  /** The current step first, if there still is one, and then all others. */
  function VisitOrder(n: nat, current: int): (r: seq<int>)
    ensures forall k :: 0 <= k < |r| ==> 0 <= r[k] < n
  {
    (if 0 <= current < n then [current] else []) + Others(n, current)
  }

  /** `recalculateCanaryStep`, with the release it reads: the step, or nothing on
      a failed read; it panics on a release without a batch at its partition. */
  predicate HasReleasedBatch(f: Fetched) {
    f.Found? ==> f.release.plan.partition.Some? && 0 <= f.release.plan.partition.value < |f.release.plan.batches|
  }

  function Recalculated(st: Strategy, step: int, w: Workload, f: Fetched): int
    requires !f.Unreadable? && HasReleasedBatch(f)
  {
    if f.Missing? then 1
    else
      var released := Scaled(f.release.plan.batches[f.release.plan.partition.value], w.replicas, true);
      FirstCovering(st, VisitOrder(|st.steps|, step - 1), 0, released, w.replicas)
  }

  function PlanChanged(st: Strategy, s: Status, inp: Inputs): Outcome {
    if inp.first.Unreadable? then (Errored, [])
    else if !HasReleasedBatch(inp.first) then (Panicked, [])
    else
      var target := Recalculated(st, s.step, inp.workload, inp.first);
      var s' := s.(next := target, hash := Some(HashOf(st)));
      (Stored(if s.next == target then s'.(state := StepReady)
              else if Jumps(st, s') then Jumped(st, s', inp.workload.replicas)
              else s'), [])
  }

  /* ---- a round ---- */

  predicate IsRollingBack(s: Status, w: Workload) {
    w.inRollback && w.revision != s.revision
  }

  predicate IsContinuous(s: Status, w: Workload) {
    s.revision != "" && w.revision != s.revision && !w.inRollback
  }

  predicate IsPlanChanged(st: Strategy, s: Status) {
    s.hash.Some? && s.hash != Some(HashOf(st))
  }

  /** `doProgressingInRolling`, its cases in their order. */
  function Rolling(st: Strategy, s: Status, inp: Inputs): Outcome {
    var w := inp.workload;
    if IsRollingBack(s, w) && !w.rollbackInBatches then (Stored(s.(revision := w.revision, reason := Cancelling)), [])
    else if st.paused then (Stored(s.(reason := Paused)), [])
    else if IsRollingBack(s, w) then
      (Stored(s.(step := 1, next := NextIndex(st, 1), revision := w.revision, state := StepInit, hash := Some(HashOf(st)))), [])
    else if IsContinuous(s, w) then
      if st.style.BlueGreen? then (Stored(s), [])
      else if inp.reset.Failed? then (Errored, [])
      else (Stored(if inp.reset.Done? then s.(reason := Initializing) else s), [])
    else if IsPlanChanged(st, s) then PlanChanged(st, s, inp)
    else if s.state.StepCompleted? then (Stored(s.(reason := Finalising)), [])
    else RunCanary(st, s, inp)
  }

  function Started(st: Strategy, w: Workload): Status {
    Status(Initializing, 1, NextIndex(st, 1), StepInit, Some(HashOf(st)), w.revision, w.rolloutID, 0)
  }

  function Observed(s: Status, w: Workload): Status {
    if s.revision != "" && s.revision == w.revision then s.(rolloutID := w.rolloutID) else s
  }

  /** One round of a progressing rollout. Finalising and cancelling leave the
      step machine alone. */
  function Reconcile(st: Strategy, s: Status, inp: Inputs): Outcome {
    match s.reason
    case Initializing =>
      (match inp.initialize
       case Failed => (Errored, [])
       case Retry => (Stored(Started(st, inp.workload)), [])
       case Done => (Stored(Started(st, inp.workload).(reason := InRolling)), []))
    case InRolling => Rolling(st, Observed(s, inp.workload), inp)
    case Paused =>
      (Stored(if st.paused then Observed(s, inp.workload) else Observed(s, inp.workload).(reason := InRolling)), [])
    case _ => (Stored(Observed(s, inp.workload)), [])
  }
}
