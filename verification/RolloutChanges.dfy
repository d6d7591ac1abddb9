/** What a change makes of a rollout: an edited strategy, a jump, another revision or
    rollout id of the workload; and what a round may write while something changed. */
module RolloutChanges {
  import opened Arithmetic
  import opened Rollout
  import opened RolloutRuns

  /* ---- an edited strategy ---- */

  /** The same release of the same steps; pauses, and pausing, do not matter. */
  predicate SameSteps(a: Strategy, b: Strategy) {
    && a.style == b.style && a.settings == b.settings
    && |a.steps| == |b.steps|
    && forall i :: 0 <= i < |a.steps| ==> a.steps[i].replicas == b.steps[i].replicas && a.steps[i].routed == b.steps[i].routed
  }

  /** An edit changes the plan exactly when it changes the style, the settings, the number
      of steps, or the size or traffic of a step; and then no matter what else. */
  lemma {:induction false} PlanChangesExactlyWhen(prior: Strategy, st: Strategy, s: Status)
    requires s.hash == Some(HashOf(prior))
    ensures IsPlanChanged(st, s) <==> !SameSteps(prior, st)
  {
    var a, b := HashOf(prior), HashOf(st);
    assert forall i :: 0 <= i < |prior.steps| ==> a.steps[i] == prior.steps[i].(pause := None);
    assert forall i :: 0 <= i < |st.steps| ==> b.steps[i] == st.steps[i].(pause := None);
    if a == b {
      forall i | 0 <= i < |prior.steps|
        ensures prior.steps[i].replicas == st.steps[i].replicas && prior.steps[i].routed == st.steps[i].routed
      {
        assert a.steps[i] == b.steps[i];
      }
    }
    if SameSteps(prior, st) {
      assert a.steps == b.steps;
    }
  }

  /* ---- where a jump lands ---- */

  function UpdatedNow(s: Status, f: Fetched): int {
    match f
    case Found(_, status) => status.updated
    case _ => s.updated
  }

  /** On step `target`, with the index after it next. The traffic of the step is routed if
      there are just as many updated pods as it asks for; otherwise the step begins. */
  predicate LandsOn(st: Strategy, t: Status, target: int, replicas: int) {
    && t.step == target && HasStep(st, target)
    && t.next == (if target < |st.steps| then target + 1 else -1)
    && t.state == if IsRoundedUp(st.steps[target - 1].replicas, replicas, t.updated) then StepTrafficRouting else StepInit
  }

  lemma {:induction false} RoundedOnce(v: IntOrString, total: int, n: int)
    ensures IsRoundedUp(v, total, n) <==> Scaled(v, total, true) == n
  {
    ScaledRounds(v, total);
  }

  /** A next index that is a step, and not the following one, is jumped to at once. */
  lemma {:induction false} JumpLands(st: Strategy, s: Status, inp: Inputs)
    requires HasStep(st, s.next) && s.next != s.step + 1
    requires !inp.first.Unreadable? && inp.writeOk
    ensures var (v, writes) := RunCanary(st, s, inp);
      && v.Stored? && LandsOn(st, v.status, s.next, inp.workload.replicas)
      && v.status.updated == UpdatedNow(s, inp.first)
      && forall write :: write in writes ==> write.PatchRolloutID?
  {
    RoundedOnce(st.steps[s.next - 1].replicas, inp.workload.replicas, UpdatedNow(s, inp.first));
    hide Scaled, IsRoundedUp, RunStep;
  }

  /** A changed plan is taken in without a write. The step to resume at is come to by
      finishing the current one if it is next already, by going on with the current one if
      it is the following one, and otherwise by a jump, also to the same step. */
  lemma {:induction false} ChangeLands(st: Strategy, s: Status, inp: Inputs)
    requires !inp.first.Unreadable? && HasReleasedBatch(inp.first)
    requires HasStep(st, Recalculated(st, s.step, inp.workload, inp.first))
    ensures var target := Recalculated(st, s.step, inp.workload, inp.first);
      var (v, writes) := PlanChanged(st, s, inp);
      && writes == [] && v.Stored? && v.status.hash == Some(HashOf(st))
      && if s.next == target then v.status.step == s.step && v.status.state.StepReady? && v.status.next == target
         else if s.step + 1 == target then v.status.step == s.step && v.status.state == s.state && v.status.next == target
         else LandsOn(st, v.status, target, inp.workload.replicas) && v.status.updated == s.updated
  {
    var target := Recalculated(st, s.step, inp.workload, inp.first);
    RoundedOnce(st.steps[target - 1].replicas, inp.workload.replicas, s.updated);
    hide Scaled, IsRoundedUp, Recalculated, HashOf;
  }

  /** A changed plan panics exactly on a release without a partition, or with one that is
      none of its batches, and fails exactly on one that cannot be read. */
  lemma {:induction false} ChangePanicsExactlyWhen(st: Strategy, s: Status, inp: Inputs)
    ensures var v := PlanChanged(st, s, inp).0;
      && (v.Errored? <==> inp.first.Unreadable?)
      && (v.Panicked? <==>
            && inp.first.Found?
            && match inp.first.release.plan.partition
               case None => true
               case Some(p) => p < 0 || |inp.first.release.plan.batches| <= p)
  {
    hide Recalculated, HashOf;
  }

  /* ---- another revision ---- */

  /** A round writes to the release only while it is rolling and not paused, only for steps
      that were taken in as they are, and only for the revision that the rollout is at. */
  lemma {:induction false} WritesOnlyForTakenIn(st: Strategy, prior: Strategy, s: Status, inp: Inputs)
    requires s.hash == Some(HashOf(prior)) && s.revision != ""
    requires Reconcile(st, s, inp).1 != []
    ensures s.reason.InRolling? && !st.paused && SameSteps(prior, st) && inp.workload.revision == s.revision
  {
    PlanChangesExactlyWhen(prior, st, s);
    hide RunCanary, HashOf, SameSteps;
    assert PlanChanged(st, Observed(s, inp.workload), inp).1 == [];
  }

  /** The rollout comes to another revision in three ways: as a new rollout, which begins at
      its first step; by a roll back in batches, which begins there again; and by a direct
      roll back, which cancels it. All three take the revision the workload has. */
  lemma {:induction false} RevisionBegins(st: Strategy, s: Status, inp: Inputs)
    ensures var (v, writes) := Reconcile(st, s, inp);
      v.Stored? && v.status.revision != s.revision ==>
        var w, t := inp.workload, v.status;
        && t.revision == w.revision && writes == []
        && if s.reason.InRolling? && !w.rollbackInBatches then t.reason.Cancelling? && w.inRollback
           else
             && t.step == 1 && t.state.StepInit? && t.hash == Some(HashOf(st)) && t.next == (if 1 < |st.steps| then 2 else -1)
             && (s.reason.Initializing? || (s.reason.InRolling? && w.inRollback && !st.paused))
  {
    RevisionStays(st, Observed(s, inp.workload), inp);
    hide RunCanary, PlanChanged, HashOf;
  }

  predicate SameRelease(s: Status, t: Status) {
    t.revision == s.revision && t.reason == s.reason && t.rolloutID == s.rolloutID
  }

  lemma {:induction false} RevisionStays(st: Strategy, s: Status, inp: Inputs)
    ensures var v := RunCanary(st, s, inp).0; v.Stored? ==> SameRelease(s, v.status)
    ensures var v := PlanChanged(st, s, inp).0; v.Stored? ==> SameRelease(s, v.status)
  {
    hide CanaryUpgrade, BeforeUpgrade, SkipsRouting, PauseOver, Recalculated, HashOf;
  }

  /** A rollout in progress starts anew exactly when the workload has yet another revision
      that is no roll back, once everything done for the last one is reset; a paused rollout
      and one in blue-green style never do. */
  lemma {:induction false} StartsAnewExactlyWhen(st: Strategy, s: Status, inp: Inputs)
    requires s.reason.InRolling?
    ensures var v := Reconcile(st, s, inp).0;
      v.Stored? && v.status.reason.Initializing? <==>
        && !st.paused && !st.style.BlueGreen? && !inp.workload.inRollback
        && s.revision != "" && inp.workload.revision != s.revision && inp.reset.Done?
  {
    RevisionStays(st, Observed(s, inp.workload), inp);
    hide RunCanary, PlanChanged, HashOf;
  }

  /** Until that is done the rollout stays as it is, and a failed reset is an error. */
  lemma {:induction false} NewRevisionWaits(st: Strategy, s: Status, inp: Inputs)
    requires s.reason.InRolling? && s.revision != "" && inp.workload.revision != s.revision && !inp.workload.inRollback
    requires !st.paused && (st.style.BlueGreen? || !inp.reset.Done?)
    ensures Reconcile(st, s, inp) == (if inp.reset.Failed? && !st.style.BlueGreen? then Errored else Stored(s), [])
  {
    hide RunCanary, PlanChanged, HashOf;
  }

  /** A rollout is cancelled exactly by a direct roll back to a revision it is not at, paused
      or not; and nothing but the revision changes with it. */
  lemma {:induction false} CancelsExactlyWhen(st: Strategy, s: Status, inp: Inputs)
    requires s.reason.InRolling?
    ensures var w, v := inp.workload, Reconcile(st, s, inp).0;
      && (v.Stored? && v.status.reason.Cancelling? <==> w.inRollback && !w.rollbackInBatches && w.revision != s.revision)
      && (v.Stored? && v.status.reason.Cancelling? ==> v.status == s.(reason := Cancelling, revision := w.revision))
  {
    RevisionStays(st, Observed(s, inp.workload), inp);
    hide RunCanary, PlanChanged, HashOf;
  }

  /** A roll back in batches to a revision it is not at starts a rollout over, from its first
      step. */
  lemma {:induction false} RollBackStartsOver(st: Strategy, s: Status, inp: Inputs)
    requires s.reason.InRolling? && inp.workload.inRollback && inp.workload.rollbackInBatches && inp.workload.revision != s.revision
    requires !st.paused
    ensures var (v, writes) := Reconcile(st, s, inp);
      && writes == [] && v.Stored? && v.status.reason.InRolling? && v.status.revision == inp.workload.revision
      && v.status.step == 1 && v.status.state.StepInit? && v.status.next == (if 1 < |st.steps| then 2 else -1)
      && v.status.hash == Some(HashOf(st))
  {
    hide RunCanary, PlanChanged, HashOf;
  }

  /** At the revision of the workload a rollout goes on with its steps, also one that rolls
      back, while they are those taken in and not all done; then it comes to its finalising. */
  lemma {:induction false} SameRevisionGoesOn(st: Strategy, prior: Strategy, s: Status, inp: Inputs)
    requires s.reason.InRolling? && !st.paused && inp.workload.revision == s.revision && s.revision != ""
    requires s.hash == Some(HashOf(prior)) && SameSteps(prior, st)
    ensures var s' := s.(rolloutID := inp.workload.rolloutID);
      Reconcile(st, s, inp) == if s.state.StepCompleted? then (Stored(s'.(reason := Finalising)), []) else RunCanary(st, s', inp)
  {
    PlanChangesExactlyWhen(prior, st, s);
    hide RunCanary, PlanChanged, HashOf, SameSteps;
  }

  /* ---- before and between the steps ---- */

  /** A new rollout is prepared again and again until its initialization is done: at its
      first step, with nothing updated, for the revision and id that the workload has then. */
  lemma {:induction false} NewRolloutBegins(st: Strategy, s: Status, inp: Inputs)
    requires s.reason.Initializing?
    ensures var (v, writes) := Reconcile(st, s, inp);
      && writes == [] && (v.Errored? <==> inp.initialize.Failed?) && !v.Panicked?
      && (v.Stored? ==>
            var t := v.status;
            && t.reason == (if inp.initialize.Done? then InRolling else Initializing)
            && t.step == 1 && t.state.StepInit? && t.updated == 0
            && t.revision == inp.workload.revision && t.rolloutID == inp.workload.rolloutID)
  {
    hide HashOf;
  }

  /** A paused rollout goes on where it was as soon as it is not paused any more; a round of
      its own takes notice of that. */
  lemma {:induction false} PausedGoesOn(st: Strategy, s: Status, inp: Inputs)
    requires s.reason.Paused?
    ensures var (v, writes) := Reconcile(st, s, inp);
      && writes == [] && v.Stored?
      && v.status == s.(reason := if st.paused then Paused else InRolling, rolloutID := v.status.rolloutID)
  {
  }

  /** The rollout id is that of the workload as long as that has the revision the rollout is
      at, and stays as it is with another one. */
  lemma {:induction false} IDFollowsRevision(st: Strategy, s: Status, inp: Inputs)
    requires !s.reason.Initializing?
    ensures var v := Reconcile(st, s, inp).0;
      v.Stored? ==>
        v.status.rolloutID == if s.revision != "" && s.revision == inp.workload.revision then inp.workload.rolloutID else s.rolloutID
  {
    RevisionStays(st, Observed(s, inp.workload), inp);
    hide RunCanary, PlanChanged, HashOf;
  }

  /* ---- another rollout id ---- */

  predicate IDDiffers(s: Status, f: Fetched) {
    match f
    case Found(release, _) => release.plan.rolloutID != s.rolloutID
    case _ => false
  }

  /** A release under another rollout id is given the rollout's before anything else is
      written, and if that fails nothing else happens; one under the same id is not. */
  lemma {:induction false} IDHandedOverFirst(st: Strategy, s: Status, inp: Inputs)
    ensures var (v, writes) := RunCanary(st, s, inp);
      && (IDDiffers(s, inp.first) ==>
            if inp.writeOk then writes != [] && writes[0] == PatchRolloutID(s.rolloutID) else v.Errored? && writes == [])
      && (forall k :: 0 <= k < |writes| && writes[k].PatchRolloutID? ==> k == 0 && IDDiffers(s, inp.first))
  {
    hide BeforeUpgrade, SkipsRouting, PauseOver, Jumped, PlanOf;
  }

  /* ---- within a step ---- */

  /** The calls due before a step with traffic may create pods: the stable service is
      restored where no stable pods will be left, and patched in the first step where a
      canary service stands beside it. */
  predicate ServicesReady(st: Strategy, s: Status, inp: Inputs)
    requires HasStep(st, s.step)
  {
    && (!StableLeft(st, st.steps[s.step - 1], inp.workload) ==> inp.restoreStable.Done?)
    && (s.step == 1 && (inp.canaryService || st.style.BlueGreen?) ==> inp.patchStable.Done?)
  }

  /** A new step with traffic goes on to its upgrade in the same round exactly when the calls
      due are done, and waits for nothing else; otherwise it stays, or the round fails. */
  lemma {:induction false} BeginsExactlyWhen(st: Strategy, s: Status, inp: Inputs)
    requires !Jumps(st, s) && HasStep(st, s.step) && s.state.StepInit? && st.steps[s.step - 1].routed
    ensures var (v, writes) := RunCanary(st, s, inp);
      if ServicesReady(st, s, inp) then (v, writes) == RunCanary(st, s.(state := StepUpgrade), inp)
      else (v.Errored? || v == Stored(s.(updated := UpdatedNow(s, inp.first)))) && forall write :: write in writes ==> write.PatchRolloutID?
  {
    SkipsWithoutStable(st, st.steps[s.step - 1], inp.workload);
    hide UpgradeStep, SkipsRouting, StableLeft;
  }

  /** A step in its upgrade passes it only on a release for the same roll back; any other
      one is given the plan of the step, and a refused write ends the round in an error. */
  lemma {:induction false} UpgradeWrites(st: Strategy, s: Status, inp: Inputs)
    requires !Jumps(st, s) && HasStep(st, s.step) && s.state.StepUpgrade? && !IDDiffers(s, inp.first)
    requires !inp.first.Unreadable? && (st.steps[s.step - 1].routed || inp.cleanUp.Done?)
    ensures var (v, writes) := RunCanary(st, s, inp);
      var rollback := inp.workload.inRollback && st.rollbackInBatch;
      match inp.second
      case Unreadable => v.Errored? && writes == []
      case Missing =>
        if inp.writeOk then v.Stored? && v.status.state.StepUpgrade? && |writes| == 1 && writes[0].Create?
        else v.Errored? && writes == []
      case Found(release, _) =>
        if release.plan == PlanOf(st, inp.workload.rolloutID, s.step) && release.rollbackInBatch == rollback
        then v.Stored? && writes == []
        else if inp.writeOk then v.Stored? && v.status.state.StepUpgrade? && |writes| == 1 && writes[0].Update?
        else v.Errored? && writes == []
  {
    hide PlanOf, SkipsRouting;
  }

  /** A pause ends after its duration, and without one only in the last step of a canary
      that has all pods. */
  lemma {:induction false} PauseEndsExactlyWhen(st: Strategy, s: Status, inp: Inputs)
    requires !Jumps(st, s) && HasStep(st, s.step) && s.state.StepPaused?
    ensures var step, v := st.steps[s.step - 1], RunCanary(st, s, inp).0;
      v.Stored? && (step.routed || inp.cleanUp.Done?) ==>
        && v.status.step == s.step && (v.status.state.StepReady? || v.status.state.StepPaused?)
        && (v.status.state.StepReady? <==>
              || (step.pause.Some? && inp.pauseOver)
              || (!st.style.BlueGreen? && s.step == |st.steps| && step.replicas == Percent(100)))
  {
  }

  /** Whether the release can be read, and be given the rollout id where that is due. */
  predicate ReleaseInReach(s: Status, inp: Inputs) {
    !inp.first.Unreadable? && (IDDiffers(s, inp.first) ==> inp.writeOk)
  }

  /** A step without traffic begins at once when that of the steps before is cleaned up: in
      blue-green style in the same round, and in canary style in a round of its own. */
  lemma {:induction false} UnroutedBegins(st: Strategy, s: Status, inp: Inputs)
    requires !Jumps(st, s) && HasStep(st, s.step) && s.state.StepInit? && !st.steps[s.step - 1].routed && inp.cleanUp.Done?
    ensures var (v, writes) := RunCanary(st, s, inp);
      if st.style.BlueGreen? then (v, writes) == RunCanary(st, s.(state := StepUpgrade), inp)
      else
        && v == (if ReleaseInReach(s, inp) then Stored(s.(state := StepUpgrade, updated := UpdatedNow(s, inp.first))) else Errored)
        && forall write :: write in writes ==> write.PatchRolloutID?
  {
    hide UpgradeStep;
  }

  /** A step that sets no traffic goes on only after that of the steps before was cleaned
      up, and writes nothing but the rollout id until then. */
  lemma {:induction false} UnroutedCleansUpFirst(st: Strategy, s: Status, inp: Inputs)
    requires !Jumps(st, s) && HasStep(st, s.step) && !st.steps[s.step - 1].routed && !inp.cleanUp.Done?
    ensures var (v, writes) := RunCanary(st, s, inp);
      && v == (if ReleaseInReach(s, inp) && inp.cleanUp.Retry? then Stored(s.(updated := UpdatedNow(s, inp.first))) else Errored)
      && forall write :: write in writes ==> write.PatchRolloutID?
  {
    hide RunStep;
  }
}
