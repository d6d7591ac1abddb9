/** The rollout controller as it changes its status: every method leaves the
    status, and makes the writes, that the functions of `Rollout` give. */
module RolloutController {
  import opened Arithmetic
  import opened Rollout
  import BatchRelease

  /** The steps `recalculateCanaryStep` looks at, the current one first. */
  method ListSteps(n: nat, current: int) returns (steps: seq<int>)
    ensures steps == VisitOrder(n, current)
  {
    steps := if 0 <= current < n then [current] else [];
    for i := 0 to n
      invariant steps == (if 0 <= current < n then [current] else []) + Others(i, current)
    {
      if i != current {
        steps := steps + [i];
      }
    }
  }

  /** `recalculateCanaryStep` stops at the first step that covers what is released
      already. */
  method RecalculateCanaryStep(st: Strategy, step: int, w: Workload, f: Fetched) returns (stepIndex: int)
    requires !f.Unreadable? && HasReleasedBatch(f)
    ensures stepIndex == Recalculated(st, step, w, f)
  {
    hide Scaled, VisitOrder;
    if f.Missing? {
      return 1;
    }
    var released := Scaled(f.release.plan.batches[f.release.plan.partition.value], w.replicas, true);
    var steps := ListSteps(|st.steps|, step - 1);
    stepIndex := 0;
    for k := 0 to |steps|
      invariant k == 0 ==> stepIndex == 0
      invariant k > 0 && k == |steps| ==> stepIndex == FirstCovering(st, steps, 0, released, w.replicas)
      invariant k < |steps| ==>
        FirstCovering(st, steps, 0, released, w.replicas) == FirstCovering(st, steps, k, released, w.replicas)
    {
      stepIndex := steps[k] + 1;
      if released <= Scaled(st.steps[steps[k]].replicas, w.replicas, true) {
        return;
      }
    }
  }

  class ReleaseManager {
    const strategy: Strategy
    var reason: Reason
    var step: int
    var next: int
    var state: StepState
    var hash: Option<Strategy>
    var revision: string
    var rolloutID: string
    var updated: int
    /** What was written to the BatchRelease in this round. */
    var writes: seq<Write>

    constructor (st: Strategy, s: Status)
      ensures Value() == s && strategy == st && writes == []
    {
      strategy := st;
      reason, step, next, state := s.reason, s.step, s.next, s.state;
      hash, revision, rolloutID, updated := s.hash, s.revision, s.rolloutID, s.updated;
      writes := [];
    }

    function Value(): Status
      reads this
    {
      Status(reason, step, next, state, hash, revision, rolloutID, updated)
    }

    /** `doStepJump`. */
    method DoStepJump(replicas: int) returns (jumped: bool)
      modifies this
      ensures jumped == Jumps(strategy, old(Value())) && writes == old(writes)
      ensures Value() == if jumped then Jumped(strategy, old(Value()), replicas) else old(Value())
    {
      jumped := false;
      if next != NextIndex(strategy, step) && next > 0 && next <= |strategy.steps| {
        step := next;
        next := NextIndex(strategy, step);
        if Scaled(strategy.steps[step - 1].replicas, replicas, true) == updated {
          state := StepTrafficRouting;
        } else {
          state := StepInit;
        }
        jumped := true;
      }
    }

    /** `doCanaryUpgrade` with `runBatchRelease`. */
    method DoCanaryUpgrade(inp: Inputs) returns (result: Upgraded)
      modifies this`writes
      ensures result == CanaryUpgrade(strategy, step, inp).0
      ensures writes == old(writes) + CanaryUpgrade(strategy, step, inp).1
    {
      var w := inp.workload;
      var plan, rollback := PlanOf(strategy, w.rolloutID, step), WantsRollback(strategy, w);
      match inp.second {
        case Unreadable =>
          return UpgradeFailed;
        case Missing =>
          if !inp.writeOk {
            return UpgradeFailed;
          }
          writes := writes + [Create(plan, rollback)];
          return NotYet;
        case Found(r, s) =>
          if r.plan != plan || r.rollbackInBatch != rollback {
            if !inp.writeOk {
              return UpgradeFailed;
            }
            writes := writes + [Update(plan, rollback)];
            return NotYet;
          }
          if s.observedPlan != Some(r.plan) || r.generation != s.observedGeneration {
            return NotYet;
          }
          if !s.batchState.Ready? || s.currentBatch + 1 < step {
            return NotYet;
          }
          return Upgraded;
      }
    }

    /** The states of a step, without the leading jump and clean-up. */
    method RunState(inp: Inputs) returns (ok: bool)
      requires HasStep(strategy, step)
      modifies this
      ensures var (verdict, more) := RunStep(strategy, old(Value()), inp);
        && writes == old(writes) + more
        && verdict == if ok then Stored(Value()) else Errored
    {
      var current := strategy.steps[step - 1];
      ok := true;
      if state == StepInit && !current.routed && !strategy.style.BlueGreen? {
        state := StepUpgrade;
      } else if state == StepInit || state == StepUpgrade {
        if state == StepInit {
          var answer := BeforeUpgrade(strategy, Value(), inp);
          if !answer.Done? {
            return !answer.Failed?;
          }
          state := StepUpgrade;
        }
        var result := DoCanaryUpgrade(inp);
        match result {
          case UpgradeFailed => ok := false;
          case NotYet =>
          case Upgraded =>
            state := StepTrafficRouting;
            if SkipsRouting(strategy, current, inp.workload) {
              state := StepMetricsAnalysis;
            }
        }
      } else if state == StepTrafficRouting {
        ok := !inp.route.Failed?;
        if inp.route.Done? {
          state := StepMetricsAnalysis;
        }
      } else if state == StepMetricsAnalysis {
        state := StepPaused;
      } else if state == StepPaused {
        if PauseOver(strategy, Value(), inp) {
          state := StepReady;
        }
      } else if state == StepReady {
        if |strategy.steps| > step {
          step := step + 1;
          next := NextIndex(strategy, step);
          state := StepInit;
        } else {
          state := StepCompleted;
        }
      }
    }

    /** `runCanary`; nothing is stored unless it ends well. */
    method RunRound(inp: Inputs) returns (verdict: Verdict)
      modifies this
      ensures verdict == RunCanary(strategy, old(Value()), inp).0
      ensures writes == old(writes) + RunCanary(strategy, old(Value()), inp).1
      ensures verdict.Stored? ==> verdict.status == Value()
    {
      hide RunStep, Jumped;
      if inp.first.Unreadable? {
        return Errored;
      }
      if inp.first.Found? {
        updated := inp.first.status.updated;
        if rolloutID != inp.first.release.plan.rolloutID {
          if !inp.writeOk {
            return Errored;
          }
          writes := writes + [PatchRolloutID(rolloutID)];
        }
      }
      var jumped := DoStepJump(inp.workload.replicas);
      if jumped {
        return Stored(Value());
      }
      if !HasStep(strategy, step) {
        return Panicked;
      }
      if !strategy.steps[step - 1].routed && !inp.cleanUp.Done? {
        return if inp.cleanUp.Failed? then Errored else Stored(Value());
      }
      var ok := RunState(inp);
      return if ok then Stored(Value()) else Errored;
    }

    /** `handleRolloutPlanChanged`. */
    method HandleRolloutPlanChanged(inp: Inputs) returns (verdict: Verdict)
      modifies this
      ensures (verdict, []) == PlanChanged(strategy, old(Value()), inp) && writes == old(writes)
      ensures verdict.Stored? ==> verdict.status == Value()
    {
      hide Jumped, FirstCovering;
      if inp.first.Unreadable? {
        return Errored;
      }
      if !HasReleasedBatch(inp.first) {
        return Panicked;
      }
      var target := RecalculateCanaryStep(strategy, step, inp.workload, inp.first);
      if next == target {
        state := StepReady;
        hash := Some(HashOf(strategy));
        return Stored(Value());
      }
      next := target;
      hash := Some(HashOf(strategy));
      var _ := DoStepJump(inp.workload.replicas);
      return Stored(Value());
    }

    /** `doProgressingInRolling`. */
    method DoProgressingInRolling(inp: Inputs) returns (verdict: Verdict)
      modifies this
      ensures verdict == Rolling(strategy, old(Value()), inp).0
      ensures writes == old(writes) + Rolling(strategy, old(Value()), inp).1
      ensures verdict.Stored? ==> verdict.status == Value()
    {
      hide RunCanary, PlanChanged;
      var w := inp.workload;
      if IsRollingBack(Value(), w) && !w.rollbackInBatches {
        revision := w.revision;
        reason := Cancelling;
      } else if strategy.paused {
        reason := Paused;
      } else if IsRollingBack(Value(), w) {
        step := 1;
        next := NextIndex(strategy, 1);
        revision := w.revision;
        state := StepInit;
        hash := Some(HashOf(strategy));
      } else if IsContinuous(Value(), w) {
        if !strategy.style.BlueGreen? {
          if inp.reset.Failed? {
            return Errored;
          }
          if inp.reset.Done? {
            reason := Initializing;
          }
        }
      } else if IsPlanChanged(strategy, Value()) {
        verdict := HandleRolloutPlanChanged(inp);
        return;
      } else if state == StepCompleted {
        reason := Finalising;
      } else {
        verdict := RunRound(inp);
        return;
      }
      return Stored(Value());
    }
  }
}
