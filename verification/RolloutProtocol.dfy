/** The rollout controller and the BatchRelease executor together. They share one
    object, the BatchRelease: the rollout writes its plan, the executor its status,
    users may edit both, and the rollout reads it from a cache that may lag behind
    by any number of changes. */
module RolloutProtocol {
  import opened Arithmetic
  import opened Rollout
  import B = BatchRelease
  import R = BatchReleaseRuns
  import C = RolloutRuns

  /** A step that the rollout took for upgraded, with what it had read then. */
  datatype Pass = Pass(step: int, plan: B.Plan, seen: R.System)

  /** `history` holds every version of the BatchRelease, the current one last, and
      none where there was no such object. */
  datatype World = World(strategy: Strategy, status: Status, history: seq<Option<R.System>>, passes: seq<Pass>)

  /** A round of the rollout reads versions `first` and `second` of the BatchRelease;
      a number that is no version stands for a failed read. An executor event is a
      read or a write of the executor, or anyone's edit of the BatchRelease. */
  datatype Event =
    | Round(inp: Inputs, first: nat, second: nat)
    | Execute(e: R.Event)
    | Vanish
    | Edit(strategy: Strategy)
    | PatchNext(next: int)
    | Approve

  function Fetch(h: seq<Option<R.System>>, k: nat): Fetched {
    if k >= |h| then Unreadable else if h[k].None? then Missing else Found(h[k].value.release, h[k].value.status)
  }

  function Reading(w: World, e: Event): Inputs
    requires e.Round?
  {
    e.inp.(first := Fetch(w.history, e.first), second := Fetch(w.history, e.second))
  }

  function Written(br: Option<R.System>, write: Write): Option<R.System> {
    match write
    case PatchRolloutID(id) =>
      if br.None? then br
      else Some(R.Step(br.value, R.Edit(br.value.release.(plan := br.value.release.plan.(rolloutID := id)))))
    case Create(plan, rollback) => if br.Some? then br else Some(R.Begin(B.Release(plan, false, rollback, 1)))
    case Update(plan, rollback) =>
      if br.None? then br else Some(R.Step(br.value, R.Edit(br.value.release.(plan := plan, rollbackInBatch := rollback))))
  }

  function WriteAll(h: seq<Option<R.System>>, writes: seq<Write>): seq<Option<R.System>>
    requires |h| >= 1
    decreases writes
  {
    if writes == [] then h else WriteAll(h + [Written(h[|h| - 1], writes[0])], writes[1..])
  }

  predicate Later(x: StepState) {
    !x.StepInit? && !x.StepUpgrade?
  }

  /** The round took the current step for upgraded: it went on from there without a
      jump, and not because the plan had changed. */
  predicate TakenForUpgraded(st: Strategy, s: Status, s': Status) {
    && !Later(s.state) && Later(s'.state)
    && !Jumps(st, s) && !IsPlanChanged(st, s)
  }

  function Next(w: World, e: Event): World
    requires |w.history| >= 1
  {
    var last := w.history[|w.history| - 1];
    match e
    case Round(_, _, second) =>
      var inp := Reading(w, e);
      var (verdict, writes) := Reconcile(w.strategy, w.status, inp);
      var status := if verdict.Stored? then verdict.status else w.status;
      World(w.strategy, status, WriteAll(w.history, writes),
            if TakenForUpgraded(w.strategy, w.status, status) && second < |w.history| && w.history[second].Some?
            then w.passes + [Pass(w.status.step, PlanOf(w.strategy, inp.workload.rolloutID, w.status.step), w.history[second].value)]
            else w.passes)
    case Execute(x) => w.(history := w.history + [if last.Some? then Some(R.Step(last.value, x)) else None])
    case Vanish => w.(history := w.history + [None])
    case Edit(st) => w.(strategy := st)
    case PatchNext(n) => w.(status := w.status.(next := n))
    case Approve => if w.status.state.StepPaused? then w.(status := w.status.(state := StepReady)) else w
  }

  /* ---- what holds of every version ---- */

  ghost predicate Sound(br: Option<R.System>) {
    br.Some? ==> R.Honest(br.value.status, R.StageOf(br.value.log)) && R.WithinPartition(br.value.status)
  }

  ghost predicate AllSound(w: World) {
    |w.history| >= 1 && forall k :: 0 <= k < |w.history| ==> Sound(w.history[k])
  }

  lemma {:induction false} StepKeepsSound(sys: R.System, e: R.Event)
    requires Sound(Some(sys))
    ensures Sound(Some(R.Step(sys, e)))
  {
    hide B.Do, R.StageOf;
    if e.Write? && sys.reading.Some? {
      R.DoKeepsHonest(sys.reading.value, sys.status, e.o, e.w, sys.log);
      R.DoKeepsPartition(sys.reading.value, sys.status, e.o, e.w);
    }
  }

  lemma {:induction false} WrittenKeepsSound(br: Option<R.System>, write: Write)
    requires Sound(br)
    ensures Sound(Written(br, write))
  {
    if br.Some? {
      match write
      case PatchRolloutID(id) =>
        StepKeepsSound(br.value, R.Edit(br.value.release.(plan := br.value.release.plan.(rolloutID := id))));
      case Create(plan, rollback) =>
      case Update(plan, rollback) =>
        StepKeepsSound(br.value, R.Edit(br.value.release.(plan := plan, rollbackInBatch := rollback)));
    }
  }

  lemma {:induction false} WriteAllKeepsSound(h: seq<Option<R.System>>, writes: seq<Write>)
    requires |h| >= 1 && forall k :: 0 <= k < |h| ==> Sound(h[k])
    ensures var h' := WriteAll(h, writes); h <= h' && forall k :: 0 <= k < |h'| ==> Sound(h'[k])
    decreases writes
  {
    hide Sound, Written;
    if writes != [] {
      WrittenKeepsSound(h[|h| - 1], writes[0]);
      WriteAllKeepsSound(h + [Written(h[|h| - 1], writes[0])], writes[1..]);
    }
  }

  lemma NothingIsSound()
    ensures Sound(None)
  {
  }

  lemma {:induction false} NextKeepsSound(w: World, e: Event)
    requires AllSound(w)
    ensures AllSound(Next(w, e)) && w.history <= Next(w, e).history
  {
    hide Sound, Reconcile, R.Step, TakenForUpgraded, WriteAll;
    NothingIsSound();
    var last := w.history[|w.history| - 1];
    match e {
      case Round(_, _, _) =>
        WriteAllKeepsSound(w.history, Reconcile(w.strategy, w.status, Reading(w, e)).1);
      case Execute(x) =>
        if last.Some? {
          StepKeepsSound(last.value, x);
        }
      case Vanish =>
      case _ =>
    }
  }

  /* ---- leaving an upgrade ---- */

  /** What the rollout had read when it took a step for upgraded: exactly the batch
      of that step, ready under exactly the plan of that step, which the executor
      had taken in; the last upgrade of the workload had brought it to that batch of
      that plan, and it was then found ready. */
  ghost predicate Verified(p: Pass) {
    var sys := p.seen;
    && p.plan.partition == Some(p.step - 1)
    && sys.release.plan == p.plan && sys.status.observedPlan == Some(p.plan)
    && sys.release.generation == sys.status.observedGeneration
    && sys.status.batchState.Ready? && sys.status.currentBatch == p.step - 1
    && R.WasVerified(sys.log, p.plan, p.step - 1)
  }

  lemma {:induction false} UpgradeStepMoves(st: Strategy, s: Status, inp: Inputs)
    requires HasStep(st, s.step)
    ensures var v := UpgradeStep(st, s, inp).0;
      && !v.Panicked?
      && (v.Stored? ==>
            || v.status == s
            || (Reports(st, inp.workload, s.step, inp.second)
                && (v.status == s.(state := StepMetricsAnalysis) || v.status == s.(state := StepTrafficRouting))))
  {
    hide Reports, SkipsRouting, PlanOf;
  }

  /** From `s` to `t` a step moves on through its states, and out of its upgrade
      only on a release that reports its batch; or the next step begins. */
  predicate Moves(st: Strategy, s: Status, t: Status, inp: Inputs) {
    || (&& t == s.(state := t.state)
        && (Later(s.state) ==> Later(t.state))
        && (t.state.StepCompleted? ==> s.step == |st.steps| || s.state.StepCompleted?)
        && (!Later(s.state) && Later(t.state) ==> Reports(st, inp.workload, s.step, inp.second)))
    || (&& s.state.StepReady? && s.step < |st.steps|
        && t == s.(step := s.step + 1, next := NextIndex(st, s.step + 1), state := StepInit))
  }

  lemma {:induction false} RunStepMoves(st: Strategy, s: Status, inp: Inputs)
    requires HasStep(st, s.step)
    ensures var v := RunStep(st, s, inp).0; !v.Panicked? && (v.Stored? ==> Moves(st, s, v.status, inp))
  {
    hide UpgradeStep, BeforeUpgrade, Reports, PauseOver;
    UpgradeStepMoves(st, s, inp);
    UpgradeStepMoves(st, s.(state := StepUpgrade), inp);
  }

  lemma {:induction false} RunCanaryMoves(st: Strategy, s: Status, inp: Inputs)
    requires !Jumps(st, s)
    ensures var v := RunCanary(st, s, inp).0;
      v.Stored? ==> HasStep(st, s.step) && Moves(st, Synced(s, inp.first), v.status, inp)
  {
    hide RunStep, Reports;
    if HasStep(st, s.step) {
      RunStepMoves(st, Synced(s, inp.first), inp);
    }
  }

  /** The only way on from an upgrade, other than a jump or a changed plan, is a
      release that reports this step's batch. */
  lemma {:induction false} OnlyReportsPass(st: Strategy, s: Status, inp: Inputs)
    requires var v := Reconcile(st, s, inp).0; v.Stored? && TakenForUpgraded(st, s, v.status)
    ensures HasStep(st, s.step) && Reports(st, inp.workload, s.step, inp.second)
    ensures Reconcile(st, s, inp).0.status.step == s.step
  {
    hide RunCanary, Reports, HashOf, PlanChanged;
    RunCanaryMoves(st, Observed(s, inp.workload), inp);
  }

  lemma {:induction false} ReportsVerify(w: World, e: Event)
    requires AllSound(w) && e.Round?
    requires HasStep(w.strategy, w.status.step)
    requires Reports(w.strategy, e.inp.workload, w.status.step, Fetch(w.history, e.second))
    ensures e.second < |w.history| && w.history[e.second].Some?
    ensures Verified(Pass(w.status.step, PlanOf(w.strategy, e.inp.workload.rolloutID, w.status.step), w.history[e.second].value))
  {
    hide R.StageOf, R.WasVerified;
    var sys := w.history[e.second].value;
    assert Sound(w.history[e.second]);
    R.StageMeans(sys.log);
  }

  /** Whenever the rollout goes on from an upgrade, in any world that runs lead to,
      the version of the BatchRelease it acted on, current or not, was verified. */
  lemma {:induction false} UpgradedMeansVerified(w: World, e: Event)
    requires AllSound(w)
    ensures var w' := Next(w, e);
      TakenForUpgraded(w.strategy, w.status, w'.status) ==>
        && w'.status.step == w.status.step
        && |w'.passes| == |w.passes| + 1 && w.passes <= w'.passes
        && w'.passes[|w.passes|].step == w.status.step && Verified(w'.passes[|w.passes|])
        && Some(w'.passes[|w.passes|].seen) in w.history
  {
    hide Reconcile, Reports, WriteAll, HashOf, Verified;
    if TakenForUpgraded(w.strategy, w.status, Next(w, e).status) {
      assert e.Round?;
      var inp := Reading(w, e);
      assert Reconcile(w.strategy, w.status, inp).0.Stored?;
      hide TakenForUpgraded;
      OnlyReportsPass(w.strategy, w.status, inp);
      ReportsVerify(w, e);
    }
  }

  function Run(w: World, events: seq<Event>): (w': World)
    requires |w.history| >= 1
    ensures |w'.history| >= 1
  {
    if events == [] then w
    else
      var before := Run(w, events[..|events| - 1]);
      GrowsHistory(before, events[|events| - 1]);
      Next(before, events[|events| - 1])
  }

  lemma {:induction false} GrowsHistory(w: World, e: Event)
    requires |w.history| >= 1
    ensures |Next(w, e).history| >= 1
  {
    hide Reconcile, TakenForUpgraded;
    if e.Round? {
      WriteAllGrows(w.history, Reconcile(w.strategy, w.status, Reading(w, e)).1);
    }
  }

  lemma {:induction false} WriteAllGrows(h: seq<Option<R.System>>, writes: seq<Write>)
    requires |h| >= 1
    ensures |WriteAll(h, writes)| >= 1
    decreases writes
  {
    if writes != [] {
      WriteAllGrows(h + [Written(h[|h| - 1], writes[0])], writes[1..]);
    }
  }

  /** A rollout about to start, and no BatchRelease yet. */
  function Start(st: Strategy, w: Workload): World {
    World(st, Started(st, w), [None], [])
  }

  /** In every run, with any jumps, plan edits, continuous releases, rollbacks and
      edits of the BatchRelease, and however stale the reads: every step ever taken
      for upgraded was verified. */
  lemma {:induction false} EveryPassIsVerified(st: Strategy, wl: Workload, events: seq<Event>)
    ensures var w := Run(Start(st, wl), events);
      && AllSound(w)
      && forall p :: p in w.passes ==> Verified(p) && Some(p.seen) in w.history
  {
    if events == [] {
    } else {
      hide Reconcile, TakenForUpgraded, Verified, Sound, WriteAll;
      EveryPassIsVerified(st, wl, events[..|events| - 1]);
      var w, e := Run(Start(st, wl), events[..|events| - 1]), events[|events| - 1];
      NextKeepsSound(w, e);
      var w' := Next(w, e);
      if TakenForUpgraded(w.strategy, w.status, w'.status) {
        UpgradedMeansVerified(w, e);
        assert forall p :: p in w'.passes ==> p in w.passes || p == w'.passes[|w.passes|];
      } else {
        assert w'.passes == w.passes;
      }
    }
  }

  /* ---- upgrades that are skipped ---- */

  /** Known before a round on a step that is not upgraded yet: it will take in a
      changed plan whose step to resume at is the next index already, or holds as many
      pods as are updated; or it will jump to a step that does. */
  predicate SkipsUpgrade(st: Strategy, s: Status, inp: Inputs) {
    var w := inp.workload;
    && s.reason.InRolling? && !st.paused && !IsRollingBack(s, w) && !IsContinuous(s, w) && !inp.first.Unreadable?
    && if IsPlanChanged(st, s) then
         && HasReleasedBatch(inp.first)
         && var target := Recalculated(st, s.step, w, inp.first);
         || s.next == target
         || (&& HasStep(st, target) && target != NextIndex(st, s.step)
             && Scaled(st.steps[target - 1].replicas, w.replicas, true) == s.updated)
       else
         && Jumps(st, s) && (NeedsRolloutID(Observed(s, w), inp.first) ==> inp.writeOk)
         && Scaled(st.steps[s.next - 1].replicas, w.replicas, true) == Synced(s, inp.first).updated
  }

  lemma {:induction false} SkipMeans(st: Strategy, s: Status, inp: Inputs)
    requires !Later(s.state)
    ensures var v := Reconcile(st, s, inp).0;
      (v.Stored? && Later(v.status.state) && (Jumps(st, s) || IsPlanChanged(st, s))) <==> SkipsUpgrade(st, s, inp)
  {
    hide RunStep, HashOf, Recalculated;
  }

  /** A round leaves an upgrade without a verified batch if and only if it skips it:
      by a jump or a changed plan, on the number of updated pods or the next index
      alone. In every other round that leaves it, the batch was verified. */
  lemma {:induction false} UpgradeSkippedExactlyWhen(w: World, e: Event)
    requires AllSound(w) && e.Round? && !Later(w.status.state)
    ensures var w' := Next(w, e);
      && (Later(w'.status.state) && w'.passes == w.passes <==> SkipsUpgrade(w.strategy, w.status, Reading(w, e)))
      && (Later(w'.status.state) && w'.passes != w.passes ==>
            && |w'.passes| == |w.passes| + 1
            && w'.passes[|w.passes|].step == w.status.step && Verified(w'.passes[|w.passes|]))
  {
    SkipMeans(w.strategy, w.status, Reading(w, e));
    hide Reconcile, SkipsUpgrade, WriteAll, Verified, HashOf, AllSound;
    if TakenForUpgraded(w.strategy, w.status, Next(w, e).status) {
      UpgradedMeansVerified(w, e);
    }
  }

  /** Every read of this round finds the version `k`. */
  function At(k: nat): Event {
    Round(C.QUIET, k, k)
  }

  const UPDATED := B.WorkloadInfo(3, 3, 0, "v1", "v2")
  const ANY_CALL := B.Workload(None, None, true, true, true, true, 0)

  lemma RunsOn(w: World, events: seq<Event>, e: Event)
    requires |w.history| >= 1
    ensures Run(w, events + [e]) == Next(Run(w, events), e)
  {
    assert (events + [e])[..|events|] == events;
  }

  lemma RunsOnTwo(w: World, events: seq<Event>, e: Event, f: Event)
    requires |w.history| >= 1
    ensures |Next(Run(w, events), e).history| >= 1
    ensures Run(w, events + [e, f]) == Next(Next(Run(w, events), e), f)
  {
    hide Run, Next;
    GrowsHistory(Run(w, events), e);
    RunsOn(w, events, e);
    RunsOn(w, events + [e], f);
    assert events + [e] + [f] == events + [e, f];
  }

  function FirstPlan(): B.Plan {
    PlanOf(C.LONG, "v2", 1)
  }

  /** The BatchRelease that the first step creates. */
  function Created(): R.System {
    R.Begin(B.Release(FirstPlan(), false, false, 1))
  }

  /** And what a first round of the executor makes of it. */
  function Refreshed(): R.System {
    Created().(status := B.Reset(B.EMPTY_STATUS).(updated := 3, observedPlan := Some(FirstPlan()), observedRolloutID := "v2", observedGeneration := 1))
  }

  lemma FirstRounds(w: World)
    requires w == Start(C.LONG, C.RELEASED)
    ensures Next(w, At(0)) == World(C.LONG, C.AT_ONE, [None], [])
    ensures Next(World(C.LONG, C.AT_ONE, [None], []), At(0))
            == World(C.LONG, C.AT_ONE.(state := StepUpgrade), [None, Some(Created())], [])
  {
    hide HashOf;
    CreatesFirst();
    assert WriteAll([None], []) == [None];
    var writes := [Create(FirstPlan(), false)];
    assert writes[1..] == [];
    assert WriteAll([None], writes) == WriteAll([None] + [Written(None, writes[0])], []);
  }

  lemma CreatesFirst()
    ensures var inp := C.QUIET;
      Reconcile(C.LONG, C.AT_ONE, inp) == (Stored(C.AT_ONE.(state := StepUpgrade)), [Create(FirstPlan(), false)])
  {
    hide HashOf, PlanOf;
  }

  lemma ExecutorRefreshes()
    ensures R.Step(Created().(reading := Some(Created().release)), R.Write(B.Seen(B.Normal, UPDATED), ANY_CALL)) == Refreshed()
  {
    assert FirstPlan().rolloutID == "v2" && FirstPlan().partition == Some(0);
    hide PlanOf, FirstPlan;
    assert Refreshed().log == [] + [];
  }

  lemma ExecutorRound(w: World)
    requires w == World(C.LONG, C.AT_ONE.(state := StepUpgrade), [None, Some(Created())], [])
    ensures var read := Some(Created().(reading := Some(Created().release)));
      Next(Next(w, Execute(R.Read)), Execute(R.Write(B.Seen(B.Normal, UPDATED), ANY_CALL)))
      == w.(history := [None, Some(Created()), read, Some(Refreshed())])
  {
    ExecutorRefreshes();
    hide HashOf, PlanOf, Refreshed, B.Do;
    assert w.history + [Some(Created().(reading := Some(Created().release)))]
        == [None, Some(Created()), Some(Created().(reading := Some(Created().release)))];
  }

  lemma JumpsUnverified(w: World)
    requires |w.history| == 4 && w.history[3] == Some(Refreshed()) && w.strategy == C.LONG && w.passes == []
    requires w.status == C.AT_ONE.(state := StepUpgrade, next := 3)
    ensures Next(w, At(3)).status == C.AT_ONE.(step := 3, next := -1, state := StepTrafficRouting, updated := 3)
    ensures Next(w, At(3)).passes == [] && Next(w, At(3)).history == w.history
  {
    hide HashOf;
    assert Fetch(w.history, 3) == Found(Refreshed().release, Refreshed().status);
  }

  lemma StartsEmpty(w: World)
    requires w == Start(C.LONG, C.RELEASED)
    ensures |w.history| >= 1 && Run(w, []) == w
    ensures Refreshed().log == [] && Refreshed().status.updatedReady == 0
  {
  }

  lemma PatchedToThree(w: World)
    requires |w.history| >= 1
    ensures Next(w, PatchNext(3)) == w.(status := w.status.(next := 3))
  {
  }

  /** From the start, with a workload whose three pods are updated and none ready: the
      rollout jumps to the third step and routes traffic to it, without any batch
      verified, nor any call to the workload made. */
  lemma TrafficRoutedUnverified()
    ensures var write := Execute(R.Write(B.Seen(B.Normal, UPDATED), ANY_CALL));
      var w := Run(Start(C.LONG, C.RELEASED), [At(0), At(0), Execute(R.Read), write, PatchNext(3), At(3)]);
      && w.status.step == 3 && w.status.state.StepTrafficRouting? && w.passes == []
      && w.history[|w.history| - 1] == Some(Refreshed()) && Refreshed().log == [] && Refreshed().status.updatedReady == 0
  {
    hide Run, Next, Refreshed, Created, HashOf, Start;
    var w := Start(C.LONG, C.RELEASED);
    var write := Execute(R.Write(B.Seen(B.Normal, UPDATED), ANY_CALL));
    var w2 := World(C.LONG, C.AT_ONE.(state := StepUpgrade), [None, Some(Created())], []);
    var w4 := w2.(history := [None, Some(Created()), Some(Created().(reading := Some(Created().release))), Some(Refreshed())]);
    StartsEmpty(w);
    FirstRounds(w);
    ExecutorRound(w2);
    PatchedToThree(w4);
    JumpsUnverified(w4.(status := w4.status.(next := 3)));
    RunsOnTwo(w, [], At(0), At(0));
    RunsOnTwo(w, [] + [At(0), At(0)], Execute(R.Read), write);
    RunsOnTwo(w, [] + [At(0), At(0)] + [Execute(R.Read), write], PatchNext(3), At(3));
    assert [] + [At(0), At(0)] + [Execute(R.Read), write] + [PatchNext(3), At(3)]
        == [At(0), At(0), Execute(R.Read), write, PatchNext(3), At(3)];
  }

  /* ---- steps in order ---- */

  /** The user leaves the rollout alone, except for approvals, pauses and pausing,
      and the workload keeps its revision. The BatchRelease may be edited. */
  predicate Calm(st: Strategy, revision: string, e: Event) {
    match e
    case Round(inp, _, _) => inp.workload.revision == revision && !inp.workload.inRollback
    case Edit(st') => HashOf(st') == HashOf(st)
    case PatchNext(_) => false
    case _ => true
  }

  /** As many steps passed as the index tells, each in its place. */
  ghost predicate InOrder(w: World, st: Strategy, revision: string) {
    var s := w.status;
    && HashOf(w.strategy) == HashOf(st) && |w.strategy.steps| == |st.steps|
    && s.revision == revision && s.hash == Some(HashOf(st)) && HasStep(st, s.step) && s.next == NextIndex(st, s.step)
    && !s.reason.Cancelling?
    && (s.reason.Initializing? ==> s.step == 1 && s.state.StepInit?)
    && (s.state.StepCompleted? || s.reason.Finalising? ==> s.step == |st.steps| && s.state.StepCompleted?)
    && |w.passes| == (if Later(s.state) then s.step else s.step - 1)
    && forall k :: 0 <= k < |w.passes| ==> w.passes[k].step == k + 1
  }

  lemma {:induction false} SameHashSameCount(a: Strategy, b: Strategy)
    requires HashOf(a) == HashOf(b)
    ensures |a.steps| == |b.steps|
  {
    assert |HashOf(a).steps| == |a.steps|;
    assert |HashOf(b).steps| == |b.steps|;
  }

  /** One round of a calm rollout: the index stays, or moves on by one after the
      step has passed. */
  lemma {:induction false} CalmRound(st: Strategy, s: Status, inp: Inputs)
    requires HasStep(st, s.step) && s.next == NextIndex(st, s.step) && s.hash == Some(HashOf(st))
    requires inp.workload.revision == s.revision && !inp.workload.inRollback && !s.reason.Cancelling?
    requires s.reason.Initializing? ==> s.step == 1 && s.state.StepInit?
    requires s.state.StepCompleted? || s.reason.Finalising? ==> s.step == |st.steps| && s.state.StepCompleted?
    ensures var v := Reconcile(st, s, inp).0;
      v.Stored? ==>
        var t := v.status;
        && t.revision == s.revision && t.hash == s.hash && t.next == NextIndex(st, t.step) && !t.reason.Cancelling?
        && (t.reason.Initializing? ==> t.step == 1 && t.state.StepInit?)
        && (t.state.StepCompleted? || t.reason.Finalising? ==> t.step == |st.steps| && t.state.StepCompleted?)
        && HasStep(st, t.step)
        && ((t.step == s.step + 1 && s.state.StepReady? && t.state.StepInit?)
            || (t.step == s.step && (Later(s.state) ==> Later(t.state))))
  {
    hide RunCanary, Reports, HashOf, PlanChanged;
    RunCanaryMoves(st, Observed(s, inp.workload), inp);
  }

  lemma {:induction false} CalmNext(w: World, st: Strategy, revision: string, e: Event)
    requires AllSound(w) && InOrder(w, st, revision) && Calm(st, revision, e)
    ensures InOrder(Next(w, e), st, revision)
  {
    assert |w.history| >= 1;
    hide Reconcile, HashOf, WriteAll, Verified, AllSound;
    match e {
      case Round(_, _, _) =>
        CalmRound(w.strategy, w.status, Reading(w, e));
        if TakenForUpgraded(w.strategy, w.status, Next(w, e).status) {
          UpgradedMeansVerified(w, e);
        }
      case Edit(st') => SameHashSameCount(st', st);
      case _ =>
    }
  }

  /** A rollout that nobody interferes with takes its steps one by one: when it is
      at a step, all earlier ones were verified, in order; when it comes to its
      finalising, all were. */
  lemma {:induction false} StepsPassInOrder(st: Strategy, wl: Workload, events: seq<Event>)
    requires |st.steps| >= 1
    requires forall e :: e in events ==> Calm(st, wl.revision, e)
    ensures var w := Run(Start(st, wl), events);
      && InOrder(w, st, wl.revision)
      && (w.status.reason.Finalising? ==> |w.passes| == |st.steps|)
      && forall k :: 0 <= k < |w.passes| ==> w.passes[k].step == k + 1 && Verified(w.passes[k])
  {
    hide Next, Verified, HashOf;
    EveryPassIsVerified(st, wl, events);
    if events != [] {
      var before, e := events[..|events| - 1], events[|events| - 1];
      assert e in events && forall x :: x in before ==> x in events;
      StepsPassInOrder(st, wl, before);
      EveryPassIsVerified(st, wl, before);
      CalmNext(Run(Start(st, wl), before), st, wl.revision, e);
    }
  }
}
