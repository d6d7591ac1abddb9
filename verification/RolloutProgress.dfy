/** The rollout controller and the executor, left alone, bring a rollout to its
    end: while the executor gets enough rounds between those of the rollout, every
    round of the rollout makes progress. */
module RolloutProgress {
  import opened Arithmetic
  import opened Rollout
  import opened RolloutProtocol
  import B = BatchRelease
  import R = BatchReleaseRuns

  /* ---- the executor's rounds ---- */

  function Latest(w: World): Option<R.System>
    requires |w.history| >= 1
  {
    w.history[|w.history| - 1]
  }

  /** One round of the executor on a workload at rest. */
  function Worked(w: World, info: B.WorkloadInfo, call: B.Workload): (r: World)
    requires |w.history| >= 1
    ensures |r.history| >= 1
  {
    Next(Next(w, Execute(R.Read)), Execute(R.Write(B.Seen(B.Normal, info), call)))
  }

  function WorkedAll(w: World, info: B.WorkloadInfo, calls: seq<B.Workload>): (r: World)
    requires |w.history| >= 1
    ensures |r.history| >= 1
    decreases calls
  {
    if calls == [] then w else WorkedAll(Worked(w, info, calls[0]), info, calls[1..])
  }

  lemma {:induction false} WorkedMeans(w: World, info: B.WorkloadInfo, call: B.Workload)
    requires |w.history| >= 1 && (Latest(w).Some? ==> Latest(w).value.reading.None?)
    ensures var w' := Worked(w, info, call);
      && w'.strategy == w.strategy && w'.status == w.status
      && (Latest(w).None? ==> Latest(w').None?)
      && (Latest(w).Some? ==>
            && Latest(w').Some? && Latest(w').value.reading.None? && Latest(w').value.release == Latest(w).value.release
            && Latest(w').value.status == R.Round(Latest(w).value.release, Latest(w).value.status, info, call))
  {
    hide B.Do;
  }

  lemma {:induction false} WorkedAllMeans(w: World, info: B.WorkloadInfo, calls: seq<B.Workload>)
    requires |w.history| >= 1 && (Latest(w).Some? ==> Latest(w).value.reading.None?)
    ensures var w' := WorkedAll(w, info, calls);
      && w'.strategy == w.strategy && w'.status == w.status
      && (Latest(w).None? ==> Latest(w').None?)
      && (Latest(w).Some? ==>
            && Latest(w').Some? && Latest(w').value.reading.None? && Latest(w').value.release == Latest(w).value.release
            && Latest(w').value.status == R.Rounds(Latest(w).value.release, Latest(w).value.status, info, calls))
    decreases calls
  {
    hide Worked, R.Round;
    if calls != [] {
      WorkedMeans(w, info, calls[0]);
      WorkedAllMeans(Worked(w, info, calls[0]), info, calls[1..]);
    }
  }

  /* ---- a world left alone ---- */

  /** Steps that do not wait for an approval, and no pausing. */
  predicate Unattended(st: Strategy) {
    |st.steps| >= 1 && !st.paused && forall k :: 0 <= k < |st.steps| ==> st.steps[k].pause.Some?
  }

  predicate Favourable(wl: Workload, inp: Inputs) {
    && inp.workload == wl && inp.writeOk && inp.pauseOver
    && inp.initialize.Done? && inp.cleanUp.Done? && inp.restoreStable.Done? && inp.patchStable.Done? && inp.route.Done?
  }

  /** The status of a rollout on its way. */
  predicate UnderWay(st: Strategy, wl: Workload, s: Status) {
    && HasStep(st, s.step) && s.next == NextIndex(st, s.step) && s.hash == Some(HashOf(st))
    && s.revision == wl.revision && s.rolloutID == wl.rolloutID
    && (s.reason.Initializing? || s.reason.InRolling? || s.reason.Finalising?)
    && (s.state.StepCompleted? || s.reason.Finalising? ==> s.step == |st.steps| && s.state.StepCompleted?)
  }

  /** The BatchRelease, if there is one, is for some step of this rollout. */
  ghost predicate ForThis(st: Strategy, wl: Workload, br: Option<R.System>) {
    br.Some? ==>
      var r, s := br.value.release, br.value.status;
      && br.value.reading.None? && !r.deleting && !r.rollbackInBatch
      && (exists k :: HasStep(st, k) && r.plan == PlanOf(st, wl.rolloutID, k))
      && R.BatchInRange(s) && !R.Ending(s)
  }

  ghost predicate LeftAlone(st: Strategy, wl: Workload, w: World) {
    && w.strategy == st && !wl.inRollback
    && |w.history| >= 1 && UnderWay(st, wl, w.status) && ForThis(st, wl, Latest(w))
  }

  predicate IsFor(st: Strategy, wl: Workload, br: Option<R.System>, step: int) {
    br.Some? && br.value.release.plan == PlanOf(st, wl.rolloutID, step)
  }

  /** Rounds of the rollout ahead. */
  function Ahead(st: Strategy, wl: Workload, s: Status, br: Option<R.System>): int {
    if s.reason.Finalising? then 0
    else if s.reason.Initializing? then 8 * |st.steps| + 1
    else
      1 + 8 * (|st.steps| - s.step) +
      match s.state
      case StepInit => 7
      case StepUpgrade => if IsFor(st, wl, br, s.step) then 5 else 6
      case StepTrafficRouting => 4
      case StepMetricsAnalysis => 3
      case StepPaused => 2
      case StepReady => 1
      case StepCompleted => 0
  }

  /** As many successful rounds as the executor may need for a step. */
  predicate Enough(st: Strategy, calls: seq<B.Workload>) {
    |calls| >= 6 * |st.steps| + 11 && forall c :: c in calls ==> R.Succeeds(c)
  }

  lemma {:induction false} AheadAtMost(r: B.Release, s: B.Status, info: B.WorkloadInfo, n: nat)
    requires r.plan.partition.Some? && r.plan.partition.value < n && R.BatchInRange(s)
    ensures R.Ahead(r, s, info) <= 6 * n + 11
  {
    hide B.Refreshed;
  }

  lemma {:induction false} RoundsKeep(r: B.Release, s: B.Status, info: B.WorkloadInfo, calls: seq<B.Workload>)
    requires R.Undisturbed(r) && R.BatchInRange(s) && !R.Ending(s) && forall c :: c in calls ==> R.Succeeds(c)
    ensures var t := R.Rounds(r, s, info, calls); R.BatchInRange(t) && !R.Ending(t)
    decreases calls
  {
    hide R.Round, R.Ahead, R.Rested;
    if calls != [] {
      R.RoundAdvances(r, s, info, calls[0]);
      RoundsKeep(r, R.Round(r, s, info, calls[0]), info, calls[1..]);
    }
  }

  lemma {:induction false} UpToDate(r: B.Release, s: B.Status, info: B.WorkloadInfo, calls: seq<B.Workload>)
    requires calls != []
    ensures R.Rounds(r, s, info, calls).observedGeneration == r.generation
    decreases calls
  {
    hide B.Do;
    if |calls| > 1 {
      UpToDate(r, R.Round(r, s, info, calls[0]), info, calls[1..]);
    } else {
      assert calls[1..] == [];
    }
  }

  /** After enough rounds the executor reports the batch its plan asks for. */
  lemma {:induction false} ExecutorDelivers(st: Strategy, wl: Workload, w: World, info: B.WorkloadInfo, calls: seq<B.Workload>)
    requires LeftAlone(st, wl, w) && Enough(st, calls)
    ensures var w' := WorkedAll(w, info, calls);
      && LeftAlone(st, wl, w') && w'.status == w.status
      && (forall k :: IsFor(st, wl, Latest(w'), k) == IsFor(st, wl, Latest(w), k))
      && forall k :: HasStep(st, k) && IsFor(st, wl, Latest(w'), k) ==>
           Reports(st, wl, k, Found(Latest(w').value.release, Latest(w').value.status))
  {
    hide Next, WorkedAll, R.Rounds, R.Ahead, R.Succeeds;
    WorkedAllMeans(w, info, calls);
    if Latest(w).Some? {
      var r, s := Latest(w).value.release, Latest(w).value.status;
      var k :| HasStep(st, k) && r.plan == PlanOf(st, wl.rolloutID, k);
      AheadAtMost(r, s, info, |st.steps|);
      R.WorkReachesPartition(r, s, info, calls);
      RoundsKeep(r, s, info, calls);
      UpToDate(r, s, info, calls);
    }
  }

  /* ---- the rollout's rounds ---- */

  /** What an upgrade does once the executor has delivered: it goes on if the release
      is for its step, and otherwise writes the release that is. */
  lemma {:induction false} UpgradeDecides(st: Strategy, wl: Workload, s: Status, inp: Inputs, br: Option<R.System>)
    requires HasStep(st, s.step) && inp.workload == wl && inp.writeOk && !wl.inRollback
    requires inp.second == (if br.None? then Missing else Found(br.value.release, br.value.status))
    requires br.Some? ==> !br.value.release.rollbackInBatch
    requires IsFor(st, wl, br, s.step) ==> Reports(st, wl, s.step, inp.second)
    ensures var (v, writes) := UpgradeStep(st, s, inp);
      && v.Stored?
      && if IsFor(st, wl, br, s.step)
         then writes == [] && (v.status == s.(state := StepMetricsAnalysis) || v.status == s.(state := StepTrafficRouting))
         else v.status == s && |writes| == 1 && IsFor(st, wl, Written(br, writes[0]), s.step)
              && (ForThis(st, wl, br) ==> ForThis(st, wl, Written(br, writes[0])))
  {
    hide PlanOf, Reports, SkipsRouting;
    if br.None? {
      WrittenIsFor(st, wl, br, Create(PlanOf(st, wl.rolloutID, s.step), false), s.step);
    } else {
      WrittenIsFor(st, wl, br, Update(PlanOf(st, wl.rolloutID, s.step), false), s.step);
    }
  }

  lemma {:induction false} WrittenIsFor(st: Strategy, wl: Workload, br: Option<R.System>, write: Write, step: int)
    requires HasStep(st, step)
    requires write == if br.None? then Create(PlanOf(st, wl.rolloutID, step), false) else Update(PlanOf(st, wl.rolloutID, step), false)
    ensures IsFor(st, wl, Written(br, write), step)
    ensures ForThis(st, wl, br) ==> ForThis(st, wl, Written(br, write))
  {
    hide PlanOf;
  }

  lemma {:induction false} StepProgress(st: Strategy, wl: Workload, s: Status, inp: Inputs, br: Option<R.System>)
    requires Unattended(st) && UnderWay(st, wl, s) && s.reason.InRolling? && !s.state.StepCompleted?
    requires Favourable(wl, inp) && !wl.inRollback && ForThis(st, wl, br)
    requires inp.second == (if br.None? then Missing else Found(br.value.release, br.value.status))
    requires IsFor(st, wl, br, s.step) ==> Reports(st, wl, s.step, inp.second)
    ensures var (v, writes) := RunStep(st, s, inp);
      && v.Stored? && UnderWay(st, wl, v.status) && |writes| <= 1
      && var br' := if writes == [] then br else Written(br, writes[0]);
      && ForThis(st, wl, br') && Ahead(st, wl, v.status, br') < Ahead(st, wl, s, br)
  {
    hide UpgradeStep, Reports, PlanOf, HashOf, Written, ForThis;
    assert PauseOver(st, s, inp);
    assert BeforeUpgrade(st, s, inp).Done?;
    hide PauseOver, BeforeUpgrade;
    if s.state.StepInit? {
      UpgradeHelps(st, wl, s.(state := StepUpgrade), inp, br);
    } else if s.state.StepUpgrade? {
      UpgradeHelps(st, wl, s, inp, br);
    }
  }

  lemma {:induction false} UpgradeHelps(st: Strategy, wl: Workload, s: Status, inp: Inputs, br: Option<R.System>)
    requires UnderWay(st, wl, s) && s.reason.InRolling? && s.state.StepUpgrade?
    requires Favourable(wl, inp) && !wl.inRollback && ForThis(st, wl, br)
    requires inp.second == (if br.None? then Missing else Found(br.value.release, br.value.status))
    requires IsFor(st, wl, br, s.step) ==> Reports(st, wl, s.step, inp.second)
    ensures var (v, writes) := UpgradeStep(st, s, inp);
      && v.Stored? && UnderWay(st, wl, v.status) && |writes| <= 1
      && var br' := if writes == [] then br else Written(br, writes[0]);
      && ForThis(st, wl, br') && Ahead(st, wl, v.status, br') < Ahead(st, wl, s, br)
  {
    UpgradeDecides(st, wl, s, inp, br);
    hide UpgradeStep, Reports, PlanOf, HashOf, Written, ForThis;
  }

  /** The initializing round starts at the first step. */
  lemma {:induction false} InitialProgress(st: Strategy, wl: Workload, s: Status, inp: Inputs, br: Option<R.System>)
    requires Unattended(st) && s.reason.Initializing? && Favourable(wl, inp)
    ensures Reconcile(st, s, inp) == (Stored(Started(st, wl).(reason := InRolling)), [])
    ensures UnderWay(st, wl, Started(st, wl).(reason := InRolling))
    ensures Ahead(st, wl, Started(st, wl).(reason := InRolling), br) < Ahead(st, wl, s, br)
  {
    hide HashOf, PlanOf;
  }

  /** A round of the rollout after the executor has delivered brings it on. */
  lemma {:induction false} RoundProgress(st: Strategy, wl: Workload, s: Status, inp: Inputs, br: Option<R.System>)
    requires Unattended(st) && UnderWay(st, wl, s) && s.reason.InRolling?
    requires Favourable(wl, inp) && !wl.inRollback && ForThis(st, wl, br)
    requires inp.first == inp.second == (if br.None? then Missing else Found(br.value.release, br.value.status))
    requires IsFor(st, wl, br, s.step) ==> Reports(st, wl, s.step, inp.second)
    ensures var (v, writes) := Reconcile(st, s, inp);
      && v.Stored? && UnderWay(st, wl, v.status) && |writes| <= 1
      && var br' := if writes == [] then br else Written(br, writes[0]);
      && ForThis(st, wl, br') && Ahead(st, wl, v.status, br') < Ahead(st, wl, s, br)
  {
    assert br.Some? ==> !NeedsRolloutID(s, inp.first);
    hide RunStep, Reports, PlanOf, HashOf, Written, ForThis, PlanChanged, Jumped;
    if !s.state.StepCompleted? {
      StepProgress(st, wl, Synced(s, inp.first), inp, br);
    }
  }

  /* ---- to the end ---- */

  /** The executor works, and then the rollout has a round that reads the latest. */
  function Cycle(w: World, info: B.WorkloadInfo, calls: seq<B.Workload>, inp: Inputs): (r: World)
    requires |w.history| >= 1
    ensures |r.history| >= 1
  {
    var w' := WorkedAll(w, info, calls);
    var e := Round(inp, |w'.history| - 1, |w'.history| - 1);
    GrowsHistory(w', e);
    Next(w', e)
  }

  lemma {:induction false} WrittenOnce(w: World, writes: seq<Write>)
    requires |w.history| >= 1 && |writes| <= 1
    ensures var h := WriteAll(w.history, writes);
      |h| >= 1 && h[|h| - 1] == if writes == [] then Latest(w) else Written(Latest(w), writes[0])
  {
    hide Written;
    if |writes| == 1 {
      assert writes[1..] == [];
    }
  }

  /** A round of the rollout on a world in which the executor has delivered. */
  lemma {:induction false} TurnProgress(st: Strategy, wl: Workload, v: World, inp: Inputs)
    requires Unattended(st) && LeftAlone(st, wl, v) && Favourable(wl, inp)
    requires IsFor(st, wl, Latest(v), v.status.step) ==>
      Reports(st, wl, v.status.step, Found(Latest(v).value.release, Latest(v).value.status))
    ensures var w' := Next(v, Round(inp, |v.history| - 1, |v.history| - 1));
      && LeftAlone(st, wl, w')
      && (v.status.reason.Finalising? ==> w'.status.reason.Finalising?)
      && (!v.status.reason.Finalising? ==> Ahead(st, wl, w'.status, Latest(w')) < Ahead(st, wl, v.status, Latest(v)))
  {
    hide Reports, ForThis, PlanOf, HashOf, Written, WriteAll, TakenForUpgraded, Rolling, Ahead;
    var e := Round(inp, |v.history| - 1, |v.history| - 1);
    var read := Reading(v, e);
    if v.status.reason.Finalising? {
      WrittenOnce(v, []);
    } else if v.status.reason.Initializing? {
      InitialProgress(st, wl, v.status, read, Latest(v));
      WrittenOnce(v, []);
    } else {
      hide Reconcile;
      RoundProgress(st, wl, v.status, read, Latest(v));
      WrittenOnce(v, Reconcile(st, v.status, read).1);
    }
  }

  lemma {:induction false} CycleProgress(st: Strategy, wl: Workload, w: World, info: B.WorkloadInfo, calls: seq<B.Workload>,
                                         inp: Inputs)
    requires Unattended(st) && LeftAlone(st, wl, w) && Enough(st, calls) && Favourable(wl, inp)
    ensures var w' := Cycle(w, info, calls, inp);
      && LeftAlone(st, wl, w')
      && (w.status.reason.Finalising? ==> w'.status.reason.Finalising?)
      && (!w.status.reason.Finalising? ==> Ahead(st, wl, w'.status, Latest(w')) < Ahead(st, wl, w.status, Latest(w)))
  {
    hide WorkedAll, Enough, Reports, ForThis, IsFor, PlanOf, HashOf, Next, Ahead;
    ExecutorDelivers(st, wl, w, info, calls);
    var v := WorkedAll(w, info, calls);
    SameAhead(st, wl, w.status, Latest(w), Latest(v));
    TurnProgress(st, wl, v, inp);
  }

  lemma {:induction false} SameAhead(st: Strategy, wl: Workload, s: Status, a: Option<R.System>, b: Option<R.System>)
    requires IsFor(st, wl, a, s.step) == IsFor(st, wl, b, s.step)
    ensures Ahead(st, wl, s, a) == Ahead(st, wl, s, b)
  {
  }

  datatype Turn = Turn(info: B.WorkloadInfo, calls: seq<B.Workload>, inp: Inputs)

  function Turns(w: World, turns: seq<Turn>): (r: World)
    requires |w.history| >= 1
    ensures |r.history| >= 1
    decreases turns
  {
    if turns == [] then w else Turns(Cycle(w, turns[0].info, turns[0].calls, turns[0].inp), turns[1..])
  }

  /** A rollout left alone comes to its finalising, from wherever it is, within eight
      rounds a step and one to start. */
  lemma {:induction false} RolloutCompletes(st: Strategy, wl: Workload, w: World, turns: seq<Turn>)
    requires Unattended(st) && LeftAlone(st, wl, w)
    requires forall t :: t in turns ==> Enough(st, t.calls) && Favourable(wl, t.inp)
    requires |turns| >= Ahead(st, wl, w.status, Latest(w))
    ensures Turns(w, turns).status.reason.Finalising?
    ensures Ahead(st, wl, w.status, Latest(w)) <= 8 * |st.steps| + 1
    decreases turns
  {
    hide Cycle, Enough, Favourable, LeftAlone, Unattended;
    AheadBounded(st, wl, w);
    if turns != [] {
      var w' := Cycle(w, turns[0].info, turns[0].calls, turns[0].inp);
      CycleProgress(st, wl, w, turns[0].info, turns[0].calls, turns[0].inp);
      AheadBounded(st, wl, w');
      RolloutCompletes(st, wl, w', turns[1..]);
    }
  }

  lemma {:induction false} AheadBounded(st: Strategy, wl: Workload, w: World)
    requires LeftAlone(st, wl, w)
    ensures |w.history| >= 1 && w.strategy == st
    ensures 0 <= Ahead(st, wl, w.status, Latest(w)) <= 8 * |st.steps| + 1
    ensures Ahead(st, wl, w.status, Latest(w)) == 0 <==> w.status.reason.Finalising?
  {
    hide HashOf, ForThis, PlanOf;
  }

  /* ---- the whole of a rollout ---- */

  ghost predicate AllVerified(w: World) {
    forall p :: p in w.passes ==> Verified(p)
  }

  /** What holds of a world whose rollout takes its steps in order, all verified. */
  ghost predicate Orderly(w: World, st: Strategy, revision: string) {
    AllSound(w) && InOrder(w, st, revision) && AllVerified(w)
  }

  lemma {:induction false} NextOrderly(w: World, st: Strategy, revision: string, e: Event)
    requires Orderly(w, st, revision) && Calm(st, revision, e)
    ensures Orderly(Next(w, e), st, revision)
  {
    assert !e.Round? ==> Next(w, e).passes == w.passes;
    hide Reconcile, Verified, AllSound, InOrder, HashOf, WriteAll;
    NextKeepsSound(w, e);
    CalmNext(w, st, revision, e);
    if e.Round? && TakenForUpgraded(w.strategy, w.status, Next(w, e).status) {
      UpgradedMeansVerified(w, e);
      assert forall p :: p in Next(w, e).passes ==> p in w.passes || p == Next(w, e).passes[|w.passes|];
    }
  }

  lemma {:induction false} WorkedOrderly(w: World, st: Strategy, revision: string, info: B.WorkloadInfo, calls: seq<B.Workload>)
    requires |w.history| >= 1 && Orderly(w, st, revision)
    ensures Orderly(WorkedAll(w, info, calls), st, revision)
    decreases calls
  {
    hide Next, Orderly;
    if calls != [] {
      NextOrderly(w, st, revision, Execute(R.Read));
      NextOrderly(Next(w, Execute(R.Read)), st, revision, Execute(R.Write(B.Seen(B.Normal, info), calls[0])));
      WorkedOrderly(Worked(w, info, calls[0]), st, revision, info, calls[1..]);
    }
  }

  lemma {:induction false} TurnsOrderly(w: World, st: Strategy, wl: Workload, turns: seq<Turn>)
    requires |w.history| >= 1 && Orderly(w, st, wl.revision) && !wl.inRollback
    requires forall t :: t in turns ==> Favourable(wl, t.inp)
    ensures Orderly(Turns(w, turns), st, wl.revision)
    decreases turns
  {
    hide Next, Orderly, WorkedAll;
    if turns != [] {
      var t := turns[0];
      WorkedOrderly(w, st, wl.revision, t.info, t.calls);
      var w' := WorkedAll(w, t.info, t.calls);
      NextOrderly(w', st, wl.revision, Round(t.inp, |w'.history| - 1, |w'.history| - 1));
      TurnsOrderly(Cycle(w, t.info, t.calls, t.inp), st, wl, turns[1..]);
    }
  }

  lemma {:induction false} StartIsOrderly(st: Strategy, wl: Workload)
    requires Unattended(st) && !wl.inRollback
    ensures var w := Start(st, wl);
      |w.history| >= 1 && LeftAlone(st, wl, w) && Orderly(w, st, wl.revision) && Ahead(st, wl, w.status, Latest(w)) == 8 * |st.steps| + 1
  {
    assert Sound(None);
    hide HashOf;
  }

  /** A fresh rollout that is left alone comes to its finalising within eight rounds a
      step and one to start, and by then every one of its steps was verified, in their
      order. */
  lemma {:induction false} FreshRolloutDelivers(st: Strategy, wl: Workload, turns: seq<Turn>)
    requires Unattended(st) && !wl.inRollback
    requires forall t :: t in turns ==> Enough(st, t.calls) && Favourable(wl, t.inp)
    requires |turns| >= 8 * |st.steps| + 1
    ensures var w := Turns(Start(st, wl), turns);
      && w.status.reason.Finalising?
      && |w.passes| == |st.steps|
      && forall k :: 0 <= k < |w.passes| ==> w.passes[k].step == k + 1 && Verified(w.passes[k])
  {
    hide Turns, Start, Enough, Favourable, LeftAlone, Verified, AllSound, HashOf, Ahead, Unattended;
    StartIsOrderly(st, wl);
    RolloutCompletes(st, wl, Start(st, wl), turns);
    TurnsOrderly(Start(st, wl), st, wl, turns);
  }
}
