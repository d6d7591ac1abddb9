/** The step index over runs of the rollout controller: it stays on a step while
    the number of steps does, whatever is patched into the next index; and what a
    changed plan makes of it. */
module RolloutRuns {
  import opened Arithmetic
  import opened Rollout
  import BatchRelease

  /* ---- where a changed plan resumes ---- */

  lemma {:induction false} OthersAt(n: nat, current: int)
    ensures |Others(n, current)| == if 0 <= current < n then n - 1 else n
    ensures forall k :: 0 <= k < |Others(n, current)| ==>
      Others(n, current)[k] == if 0 <= current <= k then k + 1 else k
  {
    if n > 0 {
      OthersAt(n - 1, current);
    }
  }

  lemma {:induction false} VisitAt(n: nat, current: int)
    ensures |VisitOrder(n, current)| == n
    ensures 0 <= current < n ==> forall k :: 0 <= k < n ==>
      VisitOrder(n, current)[k] == if k == 0 then current else if k <= current then k - 1 else k
    ensures !(0 <= current < n) ==> forall k :: 0 <= k < n ==> VisitOrder(n, current)[k] == k
  {
    OthersAt(n, current);
  }

  lemma {:induction false} FirstCoveringMeans(st: Strategy, order: seq<int>, k: nat, released: int, replicas: int)
      returns (m: nat)
    requires k < |order| && forall k :: 0 <= k < |order| ==> 0 <= order[k] < |st.steps|
    ensures k <= m < |order| && FirstCovering(st, order, k, released, replicas) == order[m] + 1
    ensures forall j :: k <= j < m ==> !Covers(st, order[j], released, replicas)
    ensures m == |order| - 1 || Covers(st, order[m], released, replicas)
    decreases |order| - k
  {
    hide Covers;
    if k + 1 == |order| || Covers(st, order[k], released, replicas) {
      m := k;
    } else {
      m := FirstCoveringMeans(st, order, k + 1, released, replicas);
    }
  }

  function ReleasedNow(w: Workload, f: Fetched): int
    requires f.Found? && HasReleasedBatch(f)
  {
    Scaled(f.release.plan.batches[f.release.plan.partition.value], w.replicas, true)
  }

  /** The current step, if it covers what is released; else the first step that
      does; and if none does, the last step, or the one before it when the last
      step is the current one. */
  lemma {:induction false} ResumesAtCoveringStep(st: Strategy, step: int, w: Workload, f: Fetched)
    requires f.Found? && HasReleasedBatch(f) && |st.steps| >= 1
    ensures var r, n := Recalculated(st, step, w, f), |st.steps|;
      && HasStep(st, r)
      && if HasStep(st, step) && Covers(st, step - 1, ReleasedNow(w, f), w.replicas) then r == step
         else if exists i :: 0 <= i < n && Covers(st, i, ReleasedNow(w, f), w.replicas) then
           && Covers(st, r - 1, ReleasedNow(w, f), w.replicas)
           && forall i :: 0 <= i < r - 1 ==> !Covers(st, i, ReleasedNow(w, f), w.replicas)
         else r == if step == n && n >= 2 then n - 1 else n
  {
    hide Covers, VisitOrder;
    var n, released := |st.steps|, ReleasedNow(w, f);
    var order := VisitOrder(n, step - 1);
    VisitAt(n, step - 1);
    var m := FirstCoveringMeans(st, order, 0, released, w.replicas);
    assert Recalculated(st, step, w, f) == order[m] + 1;
    if HasStep(st, step) {
      if m == 0 {
        if !Covers(st, order[0], released, w.replicas) {
          assert n == 1;
        }
      } else {
        assert !Covers(st, order[0], released, w.replicas);
        forall i | 0 <= i < n && i != step - 1 && i < order[m]
          ensures !Covers(st, i, released, w.replicas)
        {
          var j := if i < step - 1 then i + 1 else i;
          assert order[j] == i;
        }
      }
    } else {
      forall i | 0 <= i < order[m]
        ensures !Covers(st, i, released, w.replicas)
      {
        assert order[i] == i;
      }
    }
  }

  /** A change that leaves the size of the released step alone, such as one of its
      traffic only, resumes at the same step. */
  lemma {:induction false} SameSizeResumesAtSameStep(st: Strategy, step: int, w: Workload, f: Fetched)
    requires f.Found? && HasReleasedBatch(f) && HasStep(st, step)
    requires st.steps[step - 1].replicas == f.release.plan.batches[f.release.plan.partition.value]
    ensures Recalculated(st, step, w, f) == step
  {
    ResumesAtCoveringStep(st, step, w, f);
  }

  /** After a plan change the status is on one of the steps, except if the current
      step is gone and the next index happened to be the one to resume at: then the
      index stays beyond the last step, and the round after jumps to the right one,
      unless the next index is patched before. */
  lemma {:induction false} ChangedPlanIndex(st: Strategy, s: Status, inp: Inputs)
    requires |st.steps| >= 1 && s.step >= 1
    requires !inp.first.Unreadable? && HasReleasedBatch(inp.first)
    ensures var target := Recalculated(st, s.step, inp.workload, inp.first);
      var (verdict, writes) := PlanChanged(st, s, inp);
      && writes == [] && verdict.Stored? && HasStep(st, target)
      && var s' := verdict.status;
      && (HasStep(st, s'.step) <==> !(s.next == target && s.step > |st.steps|))
      && (s'.step == s.step || s'.step == target)
      && (!HasStep(st, s'.step) ==> forall later: Inputs :: !later.first.Unreadable? && later.writeOk ==>
            var (v, _) := RunCanary(st, s', later); v.Stored? && v.status.step == target)
  {
    assert inp.first.Missing? ==> Recalculated(st, s.step, inp.workload, inp.first) == 1;
    hide Recalculated;
    if inp.first.Found? {
      ResumesAtCoveringStep(st, s.step, inp.workload, inp.first);
    }
  }

  /* ---- what is written ---- */

  /** Every plan a round writes is that of its step: batch `i` has the size of step `i + 1`,
      the partition is the step's own batch, and the rollout id that of the workload. It is
      written for a roll back if the workload is in one and the strategy has it in batches. */
  lemma {:induction false} PlanWritten(st: Strategy, s: Status, inp: Inputs, k: nat)
    requires k < |RunCanary(st, s, inp).1| && !RunCanary(st, s, inp).1[k].PatchRolloutID?
    ensures RunCanary(st, s, inp).1[k].rollbackInBatch <==> inp.workload.inRollback && st.rollbackInBatch
    ensures var plan := RunCanary(st, s, inp).1[k].plan;
      && HasStep(st, s.step) && plan.partition == Some(s.step - 1) && plan.rolloutID == inp.workload.rolloutID
      && |plan.batches| == |st.steps| && forall i :: 0 <= i < |st.steps| ==> plan.batches[i] == st.steps[i].replicas
  {
    hide BeforeUpgrade, SkipsRouting, PauseOver;
  }

  /* ---- rounds move the index as announced ---- */

  /** In a normal round the index changes in two ways only: it jumps to a next index
      that is a step and is not the following one, or it moves on by one from a
      ready step. A next index that is no step never moves it, and is not repaired
      before the index moves. */
  lemma {:induction false} RoundMovesIndex(st: Strategy, s: Status, inp: Inputs)
    ensures var (v, _) := RunCanary(st, s, inp);
      v.Stored? ==>
        && (v.status.step == s.step
            || (v.status.step == s.next && HasStep(st, s.next) && s.next != NextIndex(st, s.step))
            || (v.status.step == s.step + 1 && s.state.StepReady? && HasStep(st, s.step + 1)))
        && (Jumps(st, s) ==> v.status.step == s.next && v.status.next == NextIndex(st, s.next))
        && (!HasStep(st, s.next) && v.status.step == s.step ==> v.status.next == s.next)
  {
    hide CanaryUpgrade, BeforeUpgrade;
  }

  /* ---- what each state waits for ---- */

  /** After the step there are pods of the stable version left to route to: some are by
      the size of the step; and all are where the new pods come beside the old ones, in
      blue-green style and for a Deployment in canary style. */
  predicate StableLeft(st: Strategy, step: Step, w: Workload) {
    || st.style.BlueGreen?
    || (st.style.Canary? && st.deployment)
    || match step.replicas
       case Int(k) => k < w.replicas
       case Percent(p) => p * w.replicas <= 100 * (w.replicas - 1)
       case Malformed => 0 < w.replicas
  }

  lemma {:induction false} SkipsWithoutStable(st: Strategy, step: Step, w: Workload)
    ensures SkipsRouting(st, step, w) <==> !StableLeft(st, step, w)
  {
    ScaledRounds(step.replicas, w.replicas);
    hide Scaled;
  }

  /** A step leaves its upgrade for its traffic routing exactly when stable pods are left,
      and for its analysis exactly when none are; and where it sets traffic, it leaves its
      first state for a full upgrade only once the stable service was restored. */
  lemma {:induction false} UpgradeLeadsToRouting(st: Strategy, s: Status, inp: Inputs)
    requires !Jumps(st, s) && HasStep(st, s.step) && (s.state.StepInit? || s.state.StepUpgrade?)
    ensures var step := st.steps[s.step - 1];
      var v := RunCanary(st, s, inp).0;
      v.Stored? ==>
        && v.status.step == s.step
        && (v.status.state != s.state && !v.status.state.StepUpgrade? ==>
              v.status.state == if StableLeft(st, step, inp.workload) then StepTrafficRouting else StepMetricsAnalysis)
        && (s.state.StepInit? && !v.status.state.StepInit? && step.routed && !StableLeft(st, step, inp.workload) ==>
              inp.restoreStable.Done?)
  {
    SkipsWithoutStable(st, st.steps[s.step - 1], inp.workload);
    hide Reports, SkipsRouting, StableLeft, PlanOf;
  }

  /** Without a jump, a step comes to each state only through the one before: to its
      upgrade after the stable service was patched, where that is due; past its
      upgrade on a release that reports it; to its analysis after its traffic was
      routed, unless no stable pod is left to route to; and to its end after its
      pause, which without a duration only an approval ends, except in the last step
      of a canary that has all pods. */
  lemma {:induction false} StatesWaitTheirTurn(st: Strategy, s: Status, inp: Inputs)
    requires !Jumps(st, s) && HasStep(st, s.step)
    ensures var (v, writes) := RunCanary(st, s, inp);
      v.Stored? && v.status.step == s.step && v.status.state != s.state ==>
        var step := st.steps[s.step - 1];
        match v.status.state
        case StepInit => false
        case StepUpgrade => s.state.StepInit? && (step.routed ==> BeforeUpgrade(st, Synced(s, inp.first), inp).Done?)
        case StepTrafficRouting =>
          (s.state.StepInit? || s.state.StepUpgrade?) && Reports(st, inp.workload, s.step, inp.second) && StableLeft(st, step, inp.workload)
        case StepMetricsAnalysis =>
          || (s.state.StepTrafficRouting? && inp.route.Done?)
          || ((s.state.StepInit? || s.state.StepUpgrade?) && Reports(st, inp.workload, s.step, inp.second) && !StableLeft(st, step, inp.workload))
        case StepPaused => s.state.StepMetricsAnalysis?
        case StepReady =>
          && s.state.StepPaused?
          && ((step.pause.Some? && inp.pauseOver) || (!st.style.BlueGreen? && s.step == |st.steps| && step.replicas == Percent(100)))
        case StepCompleted => s.state.StepReady? && s.step == |st.steps|
  {
    SkipsWithoutStable(st, st.steps[s.step - 1], inp.workload);
    hide Reports, SkipsRouting, StableLeft, BeforeUpgrade, PlanOf;
  }

  /** The first step creates no pods before the stable service selects its own: a
      release is written from the initial state only when the calls before it are
      done. */
  lemma {:induction false} NoPodsBeforePatch(st: Strategy, s: Status, inp: Inputs)
    requires !Jumps(st, s) && HasStep(st, s.step) && s.state.StepInit? && st.steps[s.step - 1].routed
    ensures (exists k :: 0 <= k < |RunCanary(st, s, inp).1| && !RunCanary(st, s, inp).1[k].PatchRolloutID?) ==>
      && (s.step == 1 && (inp.canaryService || st.style.BlueGreen?) ==> inp.patchStable.Done?)
      && (!StableLeft(st, st.steps[s.step - 1], inp.workload) ==> inp.restoreStable.Done?)
  {
    SkipsWithoutStable(st, st.steps[s.step - 1], inp.workload);
    hide Reports, SkipsRouting, StableLeft, PlanOf;
  }

  /** A paused rollout stands still, except for a direct roll back, and writes
      nothing in either case. */
  lemma {:induction false} PausedStandsStill(st: Strategy, s: Status, inp: Inputs)
    requires st.paused
    ensures var (v, writes) := Rolling(st, s, inp);
      && writes == [] && v.Stored?
      && v.status == s.(reason := v.status.reason, revision := v.status.revision)
      && (v.status.reason.Cancelling? || v.status.reason.Paused?)
      && (v.status.reason.Cancelling? <==> IsRollingBack(s, inp.workload) && !inp.workload.rollbackInBatches)
  {
  }

  /* ---- runs ---- */

  /** The stored rollout; `panicked` once a round has indexed out of range. */
  datatype Controller = Controller(strategy: Strategy, status: Status, panicked: bool)

  /** Between rounds a user may change the strategy, patch any next index, and
      approve a paused step. */
  datatype Event = Edit(strategy: Strategy) | PatchNext(next: int) | Approve | Round(inp: Inputs)

  function Next(c: Controller, e: Event): Controller {
    match e
    case Edit(st) => c.(strategy := st)
    case PatchNext(n) => c.(status := c.status.(next := n))
    case Approve => if c.status.state.StepPaused? then c.(status := c.status.(state := StepReady)) else c
    case Round(inp) =>
      match Reconcile(c.strategy, c.status, inp).0
      case Stored(s) => c.(status := s)
      case Errored => c
      case Panicked => c.(panicked := true)
  }

  function Run(c: Controller, events: seq<Event>): Controller {
    if events == [] then c else Next(Run(c, events[..|events| - 1]), events[|events| - 1])
  }

  /* ---- no analysis before routing ---- */

  /** The analysis of a step and the pause after it. */
  predicate Analysed(s: Status) {
    s.state.StepMetricsAnalysis? || s.state.StepPaused?
  }

  /** A round comes to the analysis of step `step` from its traffic routing, which was
      done, or straight from an upgrade that left no stable pods. */
  predicate Enters(c: Controller, e: Event, step: int) {
    && e.Round? && c.status.reason.InRolling? && c.status.step == step && HasStep(c.strategy, step)
    && if c.status.state.StepTrafficRouting? then e.inp.route.Done?
       else (c.status.state.StepInit? || c.status.state.StepUpgrade?) && !StableLeft(c.strategy, c.strategy.steps[step - 1], e.inp.workload)
  }

  ghost predicate Entered(c: Controller, events: seq<Event>, step: int) {
    exists k: nat :: k < |events| && EntersAt(c, events, k, step)
  }

  predicate EntersAt(c: Controller, events: seq<Event>, k: nat, step: int)
    requires k < |events|
  {
    Enters(Run(c, events[..k]), events[k], step)
  }

  lemma {:induction false} CanaryEnters(st: Strategy, s: Status, inp: Inputs)
    ensures var v := RunCanary(st, s, inp).0;
      v.Stored? && Analysed(v.status) ==>
        && v.status.step == s.step && HasStep(st, s.step)
        && (|| Analysed(s)
            || (s.state.StepTrafficRouting? && inp.route.Done?)
            || ((s.state.StepInit? || s.state.StepUpgrade?) && !StableLeft(st, st.steps[s.step - 1], inp.workload)))
  {
    if HasStep(st, s.step) {
      SkipsWithoutStable(st, st.steps[s.step - 1], inp.workload);
    }
    hide CanaryUpgrade, BeforeUpgrade, SkipsRouting, StableLeft, PauseOver;
  }

  lemma {:induction false} RoundEnters(c: Controller, e: Event)
    requires Analysed(Next(c, e).status)
    ensures Next(c, e).status.step == c.status.step
    ensures Analysed(c.status) || Enters(c, e, c.status.step)
  {
    hide RunCanary, StableLeft, Recalculated;
    if e.Round? && c.status.reason.InRolling? {
      CanaryEnters(c.strategy, Observed(c.status, e.inp.workload), e.inp);
    }
  }

  lemma {:induction false} EnteredBefore(c: Controller, events: seq<Event>, step: int)
    requires events != []
    requires Entered(c, events[..|events| - 1], step) || EntersAt(c, events, |events| - 1, step)
    ensures Entered(c, events, step)
  {
    hide Run, Enters;
    var before := events[..|events| - 1];
    if !EntersAt(c, events, |events| - 1, step) {
      var k: nat :| k < |before| && EntersAt(c, before, k, step);
      assert before[..k] == events[..k];
      assert EntersAt(c, events, k, step);
    }
  }

  /** Whatever is edited, patched or approved, a rollout that is analysing a step, or
      pausing after it, has routed the traffic of that step in some round, or left no
      stable pods to route to. */
  lemma {:induction false} AnalysisMeansRouted(c: Controller, events: seq<Event>)
    requires !Analysed(c.status)
    ensures var d := Run(c, events); Analysed(d.status) ==> Entered(c, events, d.status.step)
  {
    hide Next, Enters;
    if events != [] && Analysed(Run(c, events).status) {
      var before, e := events[..|events| - 1], events[|events| - 1];
      AnalysisMeansRouted(c, before);
      var d := Run(c, before);
      RoundEnters(d, e);
      EnteredBefore(c, events, d.status.step);
    }
  }

  /* ---- the index over runs ---- */

  predicate OnAStep(c: Controller) {
    !c.panicked && |c.strategy.steps| >= 1 && (HasStep(c.strategy, c.status.step) || c.status.reason.Initializing?)
  }

  /** The number of steps stays, and releases are read with a batch at their
      partition. */
  predicate KeepsCount(n: nat, e: Event) {
    && (e.Edit? ==> |e.strategy.steps| == n)
    && (e.Round? ==> HasReleasedBatch(e.inp.first))
  }

  lemma {:induction false} RoundStaysOnAStep(st: Strategy, s: Status, inp: Inputs)
    requires |st.steps| >= 1 && HasStep(st, s.step) && HasReleasedBatch(inp.first)
    ensures var (v, _) := Rolling(st, s, inp); !v.Panicked? && (v.Stored? ==> HasStep(st, v.status.step))
  {
    assert inp.first.Unreadable? ==> PlanChanged(st, s, inp).0.Errored?;
    hide RunCanary, PlanChanged;
    if !inp.first.Unreadable? {
      ChangedPlanIndex(st, s, inp);
    }
    RoundMovesIndex(st, s, inp);
    OnStepNeverPanics(st, s, inp);
  }

  lemma {:induction false} OnStepNeverPanics(st: Strategy, s: Status, inp: Inputs)
    requires HasStep(st, s.step)
    ensures !RunCanary(st, s, inp).0.Panicked?
  {
    hide CanaryUpgrade, BeforeUpgrade, Jumped;
  }

  /** While the number of steps stays the same, the index is on a step after every
      run, and no round ever indexes out of range. */
  lemma {:induction false} IndexStaysOnAStep(c: Controller, events: seq<Event>)
    requires OnAStep(c) && forall e :: e in events ==> KeepsCount(|c.strategy.steps|, e)
    ensures var d := Run(c, events); OnAStep(d) && |d.strategy.steps| == |c.strategy.steps|
  {
    hide Rolling;
    if events != [] {
      var before, e := events[..|events| - 1], events[|events| - 1];
      assert e in events && forall x :: x in before ==> x in events;
      IndexStaysOnAStep(c, before);
      var d := Run(c, before);
      if e.Round? && d.status.reason.InRolling? {
        RoundStaysOnAStep(d.strategy, Observed(d.status, e.inp.workload), e.inp);
      }
    }
  }

  /* ---- runs with any edits ---- */

  /** The index is on a step of the plan that was taken in last, and the next index is
      the one after it. */
  predicate FollowsPlan(s: Status) {
    s.hash.Some? && HasStep(s.hash.value, s.step) && s.next == NextIndex(s.hash.value, s.step)
  }

  predicate Follows(c: Controller) {
    !c.panicked && |c.strategy.steps| >= 1 && (FollowsPlan(c.status) || c.status.reason.Initializing?)
  }

  /** The step list may change in any way that leaves a step; the next index is not
      patched. */
  predicate Unpatched(e: Event) {
    && !e.PatchNext?
    && (e.Edit? ==> |e.strategy.steps| >= 1)
    && (e.Round? ==> HasReleasedBatch(e.inp.first))
  }

  lemma {:induction false} HashKeepsSteps(st: Strategy, i: int)
    ensures HasStep(HashOf(st), i) == HasStep(st, i) && NextIndex(HashOf(st), i) == NextIndex(st, i)
  {
  }

  lemma {:induction false} RoundKeepsNext(st: Strategy, s: Status, inp: Inputs)
    requires HasStep(st, s.step) && s.next == NextIndex(st, s.step)
    ensures var (v, _) := RunCanary(st, s, inp);
      v.Stored? ==>
        && HasStep(st, v.status.step) && v.status.next == NextIndex(st, v.status.step) && v.status.hash == s.hash
  {
    hide CanaryUpgrade, BeforeUpgrade;
  }

  lemma {:induction false} ChangedPlanFollows(st: Strategy, s: Status, inp: Inputs)
    requires |st.steps| >= 1 && FollowsPlan(s)
    requires !inp.first.Unreadable? && HasReleasedBatch(inp.first)
    ensures var (v, _) := PlanChanged(st, s, inp);
      v.Stored? && v.status.hash == Some(HashOf(st)) && HasStep(st, v.status.step) && v.status.next == NextIndex(st, v.status.step)
  {
    ChangedPlanIndex(st, s, inp);
    hide Recalculated, HashOf;
  }

  lemma {:induction false} RoundFollows(st: Strategy, s: Status, inp: Inputs)
    requires |st.steps| >= 1 && FollowsPlan(s) && HasReleasedBatch(inp.first)
    ensures var (v, _) := Rolling(st, s, inp);
      !v.Panicked? && (v.Stored? ==> FollowsPlan(v.status) || v.status.reason.Initializing?)
  {
    assert inp.first.Unreadable? ==> PlanChanged(st, s, inp).0.Errored?;
    hide RunCanary, PlanChanged, HashOf;
    HashKeepsSteps(st, 1);
    HashKeepsSteps(st, s.step);
    if IsPlanChanged(st, s) && !inp.first.Unreadable? {
      ChangedPlanFollows(st, s, inp);
      HashKeepsSteps(st, PlanChanged(st, s, inp).0.status.step);
    } else if !IsPlanChanged(st, s) {
      RoundKeepsNext(st, s, inp);
      OnStepNeverPanics(st, s, inp);
      var v := RunCanary(st, s, inp).0;
      HashKeepsSteps(st, if v.Stored? then v.status.step else 0);
    }
  }

  /** Unless someone patches the next index, the index is on a step after every plan
      change and after every other round, for any edits of the step list, and no
      round ever indexes out of range. */
  lemma {:induction false} IndexFollowsPlan(c: Controller, events: seq<Event>)
    requires Follows(c) && forall e :: e in events ==> Unpatched(e)
    ensures var d := Run(c, events);
      && Follows(d)
      && (d.status.reason.InRolling? && !IsPlanChanged(d.strategy, d.status) ==> HasStep(d.strategy, d.status.step))
  {
    hide Rolling, HashOf;
    if events != [] {
      var before, e := events[..|events| - 1], events[|events| - 1];
      assert e in events && forall x :: x in before ==> x in events;
      IndexFollowsPlan(c, before);
      var d := Run(c, before);
      if e.Round? && d.status.reason.InRolling? {
        RoundFollows(d.strategy, Observed(d.status, e.inp.workload), e.inp);
      }
      if e.Round? {
        HashKeepsSteps(d.strategy, 1);
      }
    }
    var d := Run(c, events);
    HashKeepsSteps(d.strategy, d.status.step);
  }

  /* ---- a patched next index ---- */

  const LONG := Strategy(Partition, false, [Step(Int(1), true, None), Step(Int(2), true, None), Step(Int(3), true, None)], "", false, false)
  const SHORT := LONG.(steps := [Step(Int(1), true, None)])
  const RELEASED := Workload(3, "v2", "v2", false, false)
  const QUIET := Inputs(RELEASED, Missing, Missing, true, Done, Done, Done, Done, Done, Done, true, true)
  const AT_ONE := Started(LONG, RELEASED).(reason := InRolling)
  const AT_THREE := AT_ONE.(step := 3, next := -1)

  lemma RunsOn(c: Controller, events: seq<Event>, e: Event)
    ensures Run(c, events + [e]) == Next(Run(c, events), e)
  {
    assert (events + [e])[..|events|] == events;
  }

  lemma JumpToThree()
    ensures Reconcile(LONG, AT_ONE.(next := 3), QUIET).0 == Stored(AT_THREE)
  {
  }

  lemma ShortIsChanged()
    ensures IsPlanChanged(SHORT, AT_THREE.(next := 1))
  {
    assert |HashOf(LONG).steps| == 3 && |HashOf(SHORT).steps| == 1;
  }

  lemma ShortenedToOne()
    ensures Reconcile(SHORT, AT_THREE.(next := 1), QUIET).0
            == Stored(AT_THREE.(next := 1, state := StepReady, hash := Some(HashOf(SHORT))))
  {
    ShortIsChanged();
    hide IsPlanChanged, HashOf;
  }

  lemma FromThree(start: Controller, events: seq<Event>)
    requires Run(start, events) == Controller(LONG, AT_THREE, false)
    ensures var all := events + [PatchNext(1)] + [Edit(SHORT)] + [Round(QUIET)];
      && Run(start, all) == Controller(SHORT, AT_THREE.(next := 1, state := StepReady, hash := Some(HashOf(SHORT))), false)
      && Run(start, all + [PatchNext(-1)] + [Round(QUIET)]).panicked
  {
    ShortenedToOne();
    BeyondPanics();
    hide Reconcile, HashOf, Run;
    RunsOn(start, events, PatchNext(1));
    RunsOn(start, events + [PatchNext(1)], Edit(SHORT));
    RunsOn(start, events + [PatchNext(1)] + [Edit(SHORT)], Round(QUIET));
    var all := events + [PatchNext(1)] + [Edit(SHORT)] + [Round(QUIET)];
    RunsOn(start, all, PatchNext(-1));
    RunsOn(start, all + [PatchNext(-1)], Round(QUIET));
  }

  lemma BeyondPanics()
    ensures Reconcile(SHORT, AT_THREE.(next := -1, state := StepReady, hash := Some(HashOf(SHORT))), QUIET).0.Panicked?
  {
    hide HashOf;
  }

  /** From the start: a jump to the third step, a patch that asks for the first, and a
      list cut down to one step. After the round the index is 3 of 1; and if the next
      index is patched away before the following round, that round indexes out of
      range. */
  lemma IndexLeftBeyondList()
    ensures var start := Controller(LONG, Started(LONG, RELEASED), false);
      var events := [Round(QUIET), PatchNext(3), Round(QUIET), PatchNext(1), Edit(SHORT), Round(QUIET)];
      && Run(start, events).status.step == 3 && |Run(start, events).strategy.steps| == 1
      && Run(start, events + [PatchNext(-1)] + [Round(QUIET)]).panicked
  {
    hide HashOf, Run;
    var start := Controller(LONG, Started(LONG, RELEASED), false);
    ToThree(start);
    FromThree(start, [Round(QUIET), PatchNext(3), Round(QUIET)]);
    assert [Round(QUIET), PatchNext(3), Round(QUIET)] + [PatchNext(1)] + [Edit(SHORT)] + [Round(QUIET)]
        == [Round(QUIET), PatchNext(3), Round(QUIET), PatchNext(1), Edit(SHORT), Round(QUIET)];
  }

  lemma ToThree(start: Controller)
    requires start == Controller(LONG, Started(LONG, RELEASED), false)
    ensures Run(start, [Round(QUIET), PatchNext(3), Round(QUIET)]) == Controller(LONG, AT_THREE, false)
  {
    JumpToThree();
    assert Reconcile(LONG, start.status, QUIET).0 == Stored(AT_ONE);
    assert Run(start, []) == start;
    hide Reconcile, HashOf, Run;
    RunsOn(start, [], Round(QUIET));
    RunsOn(start, [] + [Round(QUIET)], PatchNext(3));
    RunsOn(start, [] + [Round(QUIET)] + [PatchNext(3)], Round(QUIET));
    assert [] + [Round(QUIET)] + [PatchNext(3)] + [Round(QUIET)] == [Round(QUIET), PatchNext(3), Round(QUIET)];
  }
}
