/** The tasks that end a rollout (rollout_canary.go, rollout_bluegreen.go): one a
    round, in an order that depends on the reason, with the current one stored in
    the status. */
module Finalising {
  import opened Arithmetic
  import opened Rollout

  datatype Task =
    | RouteTrafficToStable | RouteTrafficToNew | RestoreStableService | RemoveCanaryService
    | ResumeWorkload | ReleaseWorkloadControl | WaitEndless

  datatype Cause = Success | RolledBack | Disabled | Deleted

  /** The stored `FinalisingStep`. */
  datatype Progress = NotStarted | At(task: Task) | Ended | Garbled

  function Tasks(style: Style, cause: Cause): (r: seq<Task>)
    ensures |r| >= 1
  {
    match (style, cause)
    case (BlueGreen, Success) =>
      [RouteTrafficToNew, RestoreStableService, ResumeWorkload, RouteTrafficToStable, RemoveCanaryService, ReleaseWorkloadControl]
    case (BlueGreen, RolledBack) =>
      [RouteTrafficToStable, ResumeWorkload, RestoreStableService, RemoveCanaryService, ReleaseWorkloadControl]
    case (_, RolledBack) =>
      [RouteTrafficToStable, ResumeWorkload, ReleaseWorkloadControl, RestoreStableService, RemoveCanaryService]
    case (_, _) =>
      [RestoreStableService, RouteTrafficToStable, RemoveCanaryService, ResumeWorkload, ReleaseWorkloadControl]
  }

  /** Where a task stands, or the length if it is not one of these. */
  function PlaceOf(tasks: seq<Task>, t: Task): (i: nat)
    ensures i <= |tasks| && (i < |tasks| ==> tasks[i] == t) && forall k :: 0 <= k < i ==> tasks[k] != t
  {
    if tasks == [] || tasks[0] == t then 0 else 1 + PlaceOf(tasks[1..], t)
  }

  /** `nextCanaryTask` and `nextBlueGreenTask`. */
  function NextProgress(style: Style, cause: Cause, p: Progress): Progress {
    var tasks := Tasks(style, cause);
    match p
    case NotStarted => At(tasks[0])
    case At(t) => if PlaceOf(tasks, t) + 1 < |tasks| then At(tasks[PlaceOf(tasks, t) + 1]) else Ended
    case _ => Ended
  }

  method NextTask(style: Style, cause: Cause, p: Progress) returns (next: Progress)
    ensures next == NextProgress(style, cause, p)
  {
    var tasks := Tasks(style, cause);
    if p.NotStarted? {
      return At(tasks[0]);
    }
    if p.At? {
      for i := 0 to |tasks|
        invariant forall k :: 0 <= k < i && k + 1 < |tasks| ==> tasks[k] != p.task
        invariant i == |tasks| ==> PlaceOf(tasks, p.task) + 1 >= |tasks|
      {
        if p.task == tasks[i] && i < |tasks| - 1 {
          return At(tasks[i + 1]);
        }
      }
    }
    return Ended;
  }

  /** The managers know different tasks; one only serves debugging and never ends. */
  predicate Knows(style: Style, t: Task) {
    style.BlueGreen? || (!t.RouteTrafficToNew? && !t.WaitEndless?)
  }

  /** How a round ended: an error stores nothing. `ran` is the task that was done. */
  datatype Ending = Ending(failed: bool, done: bool, progress: Progress, ran: Option<Task>)

  /** `doCanaryFinalising`, with the answer that the task's own call gets. */
  function Finalised(style: Style, cause: Cause, p: Progress, annotationOk: bool, answer: Answer): Ending {
    if !annotationOk then Ending(true, false, p, None)
    else if p.Ended? then Ending(false, true, p, None)
    else
      var next := NextProgress(style, cause, p);
      var now := if p.NotStarted? then next else p;
      if !now.At? || !Knows(style, now.task) then Ending(false, false, NextProgress(style, cause, NotStarted), None)
      else if answer.Failed? || now.task.WaitEndless? then Ending(true, false, p, None)
      else if answer.Retry? then Ending(false, false, now, None)
      else Ending(false, next.Ended?, next, Some(now.task))
  }

  class Finaliser {
    const style: Style
    var finalisingStep: Progress
    /** The tasks that were done. */
    var ran: seq<Task>

    constructor (s: Style, p: Progress)
      ensures style == s && finalisingStep == p && ran == []
    {
      style, finalisingStep, ran := s, p, [];
    }

    /** The step is as it will be stored, if there is no error. */
    method DoFinalising(cause: Cause, annotationOk: bool, answer: Answer) returns (done: bool, failed: bool)
      modifies this
      ensures var e := Finalised(style, cause, old(finalisingStep), annotationOk, answer);
        && failed == e.failed && done == e.done
        && (!failed ==> finalisingStep == e.progress)
        && ran == if e.ran.Some? then old(ran) + [e.ran.value] else old(ran)
    {
      hide Tasks, PlaceOf, Knows;
      if !annotationOk {
        return false, true;
      }
      var nextStep := NextTask(style, cause, finalisingStep);
      if finalisingStep == NotStarted {
        finalisingStep := nextStep;
      } else if finalisingStep == Ended {
        return true, false;
      }
      if finalisingStep == Garbled || !Knows(style, finalisingStep.task) {
        finalisingStep := NextTask(style, cause, NotStarted);
        return false, false;
      }
      if answer.Failed? || finalisingStep.task == WaitEndless {
        return false, true;
      }
      if answer.Retry? {
        return false, false;
      }
      ran := ran + [finalisingStep.task];
      finalisingStep := nextStep;
      return finalisingStep == Ended, false;
    }
  }

  /* ---- runs ---- */

  /** One round; `stored` is whether the status update went through. */
  datatype Round = Round(annotationOk: bool, answer: Answer, stored: bool)

  datatype State = State(progress: Progress, ran: seq<Task>, done: bool)

  function Next(style: Style, cause: Cause, s: State, r: Round): State {
    var e := Finalised(style, cause, s.progress, r.annotationOk, r.answer);
    State(if e.failed || !r.stored then s.progress else e.progress,
          if e.ran.Some? then s.ran + [e.ran.value] else s.ran,
          s.done || (e.done && !e.failed))
  }

  function Run(style: Style, cause: Cause, s: State, rounds: seq<Round>): State {
    if rounds == [] then s else Next(style, cause, Run(style, cause, s, rounds[..|rounds| - 1]), rounds[|rounds| - 1])
  }

  /** The tasks without immediate repetitions. */
  function Squeezed(ts: seq<Task>): seq<Task> {
    if ts == [] then []
    else
      var before, last := Squeezed(ts[..|ts| - 1]), ts[|ts| - 1];
      if before != [] && before[|before| - 1] == last then before else before + [last]
  }

  /** From place `from` on, with the tasks up to the current one done, some of them
      more than once. */
  predicate OnTheWay(tasks: seq<Task>, from: nat, s: State) {
    var ran := Squeezed(s.ran);
    && from < |tasks|
    && (s.done ==> ran == tasks[from..])
    && match s.progress
       case NotStarted => from == 0 && (ran == [] || ran == tasks[..1])
       case Ended => ran == tasks[from..]
       case Garbled => false
       case At(t) =>
         var i := PlaceOf(tasks, t);
         && from <= i < |tasks| && (ran == tasks[from..i] || ran == tasks[from..i + 1])
  }

  lemma {:induction false} SqueezedAppend(ts: seq<Task>, t: Task)
    ensures var before := Squeezed(ts);
      Squeezed(ts + [t]) == if before != [] && before[|before| - 1] == t then before else before + [t]
  {
    assert (ts + [t])[..|ts|] == ts;
  }

  lemma {:induction false} TasksDistinct(style: Style, cause: Cause, i: nat)
    requires i < |Tasks(style, cause)|
    ensures PlaceOf(Tasks(style, cause), Tasks(style, cause)[i]) == i
    ensures Knows(style, Tasks(style, cause)[i]) && !Tasks(style, cause)[i].WaitEndless?
    ensures |Tasks(style, cause)| >= 2
  {
  }

  /** The tasks of every sequence, each of them once: traffic goes to the new version
      only when a blue-green release succeeded. */
  lemma {:induction false} TasksComplete(style: Style, cause: Cause, t: Task)
    ensures var tasks := Tasks(style, cause);
      && (t in tasks <==> !t.WaitEndless? && (t.RouteTrafficToNew? ==> style.BlueGreen? && cause.Success?))
      && (forall i, j :: 0 <= i < j < |tasks| ==> tasks[i] != tasks[j])
  {
    var tasks := Tasks(style, cause);
    assert tasks[0] in tasks && tasks[1] in tasks && tasks[2] in tasks && tasks[3] in tasks && tasks[4] in tasks;
    if style.BlueGreen? && cause.Success? {
      assert tasks[5] in tasks;
    }
  }

  /** A step that the manager does not know, or that is none, starts the sequence over. */
  lemma {:induction false} UnknownStartsOver(style: Style, cause: Cause, p: Progress, answer: Answer)
    requires p.Garbled? || (!style.BlueGreen? && (p == At(RouteTrafficToNew) || p == At(WaitEndless)))
    ensures Finalised(style, cause, p, true, answer) == Ending(false, false, At(Tasks(style, cause)[0]), None)
  {
    hide Tasks, PlaceOf;
  }

  /** A round on one of the tasks does it or not; if it does, the next one is up. It fails
      exactly on a failed call, and stays on a task that is to be tried again. */
  lemma {:induction false} RoundOnTask(style: Style, cause: Cause, i: nat, r: Round)
    requires i < |Tasks(style, cause)|
    ensures var tasks := Tasks(style, cause);
      var e := Finalised(style, cause, At(tasks[i]), r.annotationOk, r.answer);
      if e.ran.Some? then
        && e.ran.value == tasks[i] && !e.failed
        && e.done == (i + 1 == |tasks|)
        && e.progress == (if e.done then Ended else At(tasks[i + 1]))
      else
        && !e.done && e.progress == At(tasks[i])
        && (e.failed <==> !r.annotationOk || r.answer.Failed?) && (!e.failed ==> r.answer.Retry?)
  {
    TasksDistinct(style, cause, i);
    hide Tasks, PlaceOf, Knows;
  }

  lemma {:induction false} FirstRound(style: Style, cause: Cause, r: Round)
    ensures var tasks := Tasks(style, cause);
      var e := Finalised(style, cause, NotStarted, r.annotationOk, r.answer);
      && !e.done
      && (e.ran.Some? ==> e.ran.value == tasks[0] && !e.failed && e.progress == At(tasks[0]))
      && (e.failed || e.progress == At(tasks[0]))
      && (e.failed <==> !r.annotationOk || r.answer.Failed?) && (e.ran.Some? <==> r.annotationOk && r.answer.Done?)
  {
    TasksDistinct(style, cause, 0);
    hide Tasks, PlaceOf, Knows;
  }

  lemma {:induction false} EndedRound(style: Style, cause: Cause, r: Round)
    ensures var e := Finalised(style, cause, Ended, r.annotationOk, r.answer);
      && e.ran.None? && e.progress.Ended?
      && e.failed == !r.annotationOk && e.done == r.annotationOk
  {
    hide Tasks, PlaceOf, Knows;
  }

  lemma {:induction false} StartOnTheWay(style: Style, cause: Cause, s: State, r: Round)
    requires OnTheWay(Tasks(style, cause), 0, s) && s.progress.NotStarted?
    ensures OnTheWay(Tasks(style, cause), 0, Next(style, cause, s, r))
  {
    hide Tasks, PlaceOf, Squeezed, Finalised;
    var tasks := Tasks(style, cause);
    FirstRound(style, cause, r);
    TasksDistinct(style, cause, 0);
    SqueezedAppend(s.ran, tasks[0]);
    assert tasks[0..0] == [] && tasks[0..1] == [tasks[0]];
    assert tasks[0..] == tasks && |tasks[..1]| == 1;
  }

  /** Doing the current task, for the first time or again, makes it the last done. */
  lemma {:induction false} SqueezedGrows(tasks: seq<Task>, from: nat, i: nat, ran: seq<Task>)
    requires from <= i < |tasks| && (i > 0 ==> tasks[i - 1] != tasks[i])
    requires Squeezed(ran) == tasks[from..i] || Squeezed(ran) == tasks[from..i + 1]
    ensures Squeezed(ran + [tasks[i]]) == tasks[from..i + 1]
  {
    hide Squeezed;
    SqueezedAppend(ran, tasks[i]);
    assert tasks[from..i + 1] == tasks[from..i] + [tasks[i]];
  }

  lemma {:induction false} TaskOnTheWay(style: Style, cause: Cause, from: nat, s: State, r: Round)
    requires OnTheWay(Tasks(style, cause), from, s) && s.progress.At?
    ensures OnTheWay(Tasks(style, cause), from, Next(style, cause, s, r))
  {
    hide Tasks, PlaceOf, Squeezed, Finalised, Knows;
    var tasks := Tasks(style, cause);
    var i := PlaceOf(tasks, s.progress.task);
    RoundOnTask(style, cause, i, r);
    if i + 1 < |tasks| {
      TasksDistinct(style, cause, i + 1);
    } else {
      assert tasks[from..i + 1] == tasks[from..];
    }
    SqueezedGrows(tasks, from, i, s.ran);
  }

  lemma {:induction false} NextOnTheWay(style: Style, cause: Cause, from: nat, s: State, r: Round)
    requires OnTheWay(Tasks(style, cause), from, s)
    ensures OnTheWay(Tasks(style, cause), from, Next(style, cause, s, r))
  {
    hide Tasks, PlaceOf, Squeezed, Finalised;
    match s.progress {
      case NotStarted => StartOnTheWay(style, cause, s, r);
      case At(t) => TaskOnTheWay(style, cause, from, s, r);
      case Ended => EndedRound(style, cause, r);
    }
  }

  lemma {:induction false} RunOnTheWay(style: Style, cause: Cause, from: nat, s: State, rounds: seq<Round>)
    requires OnTheWay(Tasks(style, cause), from, s)
    ensures OnTheWay(Tasks(style, cause), from, Run(style, cause, s, rounds))
  {
    hide OnTheWay, Next;
    if rounds != [] {
      RunOnTheWay(style, cause, from, s, rounds[..|rounds| - 1]);
      NextOnTheWay(style, cause, from, Run(style, cause, s, rounds[..|rounds| - 1]), rounds[|rounds| - 1]);
    }
  }

  function Begin(): State {
    State(NotStarted, [], false)
  }

  /** For a fixed reason, and over any retries, errors and lost status updates: when
      the end is reported, every task of the sequence was done, in its order, with
      no other in between. */
  lemma {:induction false} DoneMeansAllInOrder(style: Style, cause: Cause, rounds: seq<Round>)
    ensures var s := Run(style, cause, Begin(), rounds);
      && (s.done ==> Squeezed(s.ran) == Tasks(style, cause))
      && Squeezed(s.ran) <= Tasks(style, cause)
  {
    var tasks := Tasks(style, cause);
    assert OnTheWay(tasks, 0, Begin());
    hide Tasks, PlaceOf, Squeezed, Next;
    RunOnTheWay(style, cause, 0, Begin(), rounds);
    assert tasks[0..] == tasks;
  }

  /** A run that finds a step stored already, of an earlier reason or reset, does the
      tasks from there on only. */
  lemma {:induction false} StoredStepSkipsBefore(style: Style, cause: Cause, from: nat, rounds: seq<Round>)
    requires from < |Tasks(style, cause)|
    ensures var s := Run(style, cause, State(At(Tasks(style, cause)[from]), [], false), rounds);
      s.done ==> Squeezed(s.ran) == Tasks(style, cause)[from..]
  {
    var tasks := Tasks(style, cause);
    TasksDistinct(style, cause, from);
    assert OnTheWay(tasks, from, State(At(tasks[from]), [], false)) by {
      assert tasks[from..from] == [];
    }
    hide Tasks, PlaceOf, Squeezed, Next;
    RunOnTheWay(style, cause, from, State(At(tasks[from]), [], false), rounds);
  }

  /** So that a run from a stored step does the whole sequence if and only if that
      step is the first. */
  lemma {:induction false} AllDoneOnlyFromFirst(style: Style, cause: Cause, from: nat, rounds: seq<Round>)
    requires from < |Tasks(style, cause)|
    requires Run(style, cause, State(At(Tasks(style, cause)[from]), [], false), rounds).done
    ensures var s := Run(style, cause, State(At(Tasks(style, cause)[from]), [], false), rounds);
      Squeezed(s.ran) == Tasks(style, cause) <==> from == 0
  {
    StoredStepSkipsBefore(style, cause, from, rounds);
    hide Tasks, Squeezed, Run;
    var tasks := Tasks(style, cause);
    assert |tasks[from..]| == |tasks| - from;
    assert from == 0 ==> tasks[from..] == tasks;
  }

  /** A run of rounds in which every call is done. */
  function Successes(n: nat): (r: seq<Round>)
    ensures |r| == n
  {
    seq(n, _ => Round(true, Done, true))
  }

  lemma {:induction false} SuccessesStep(n: nat)
    requires n > 0
    ensures Successes(n)[..n - 1] == Successes(n - 1) && Successes(n)[n - 1] == Round(true, Done, true)
  {
  }

  lemma {:induction false} SuccessfulRounds(style: Style, cause: Cause, from: nat, ran: seq<Task>, n: nat)
    requires from < |Tasks(style, cause)| && n <= |Tasks(style, cause)| - from
    ensures var tasks := Tasks(style, cause);
      Run(style, cause, State(At(tasks[from]), ran, false), Successes(n))
      == State(if from + n == |tasks| then Ended else At(tasks[from + n]), ran + tasks[from..from + n], from + n == |tasks|)
  {
    hide Tasks, Finalised, Successes;
    var tasks := Tasks(style, cause);
    if n == 0 {
      assert ran + tasks[from..from] == ran;
    } else {
      SuccessesStep(n);
      SuccessfulRounds(style, cause, from, ran, n - 1);
      SuccessfulRound(style, cause, from + n - 1);
      assert ran + tasks[from..from + n] == ran + tasks[from..from + n - 1] + [tasks[from + n - 1]];
    }
  }

  lemma {:induction false} SuccessfulRound(style: Style, cause: Cause, i: nat)
    requires i < |Tasks(style, cause)|
    ensures var tasks := Tasks(style, cause);
      Finalised(style, cause, At(tasks[i]), true, Done)
      == Ending(false, i + 1 == |tasks|, if i + 1 == |tasks| then Ended else At(tasks[i + 1]), Some(tasks[i]))
  {
    TasksDistinct(style, cause, i);
    hide Tasks, PlaceOf, Knows;
  }

  lemma {:induction false} RunConcat(style: Style, cause: Cause, s: State, a: seq<Round>, b: seq<Round>)
    ensures Run(style, cause, s, a + b) == Run(style, cause, Run(style, cause, s, a), b)
  {
    hide Next;
    if b == [] {
      assert a + b == a;
    } else {
      assert (a + b)[..|a + b| - 1] == a + b[..|b| - 1];
      RunConcat(style, cause, s, a, b[..|b| - 1]);
    }
  }

  lemma {:induction false} SuccessfulStart(style: Style, cause: Cause)
    ensures Run(style, cause, Begin(), Successes(1)) == State(At(Tasks(style, cause)[0]), [Tasks(style, cause)[0]], false)
  {
    TasksDistinct(style, cause, 0);
    hide Tasks, PlaceOf, Knows;
    assert Successes(1)[..0] == [];
  }

  /** The end is reached: from a stored step after one success a task, and from the
      start after one more, as the first task is done twice. */
  lemma {:induction false} SuccessesEnd(style: Style, cause: Cause, from: nat)
    requires from < |Tasks(style, cause)|
    ensures var tasks := Tasks(style, cause);
      && Run(style, cause, State(At(tasks[from]), [], false), Successes(|tasks| - from)) == State(Ended, tasks[from..], true)
      && Run(style, cause, Begin(), Successes(1 + |tasks|)) == State(Ended, [tasks[0]] + tasks, true)
  {
    hide Tasks, Run;
    var tasks := Tasks(style, cause);
    SuccessfulRounds(style, cause, from, [], |tasks| - from);
    SuccessfulStart(style, cause);
    SuccessfulRounds(style, cause, 0, [tasks[0]], |tasks|);
    RunConcat(style, cause, Begin(), Successes(1), Successes(|tasks|));
    assert Successes(1) + Successes(|tasks|) == Successes(1 + |tasks|);
    assert [] + tasks[from..|tasks|] == tasks[from..] && tasks[0..|tasks|] == tasks;
  }

  /* ---- what comes before what ---- */

  predicate Precedes(tasks: seq<Task>, a: Task, b: Task) {
    exists i, j :: 0 <= i < j < |tasks| && tasks[i] == a && tasks[j] == b
  }

  lemma {:induction false} SqueezedMembers(ts: seq<Task>, t: Task)
    ensures t in ts <==> t in Squeezed(ts)
  {
    if ts != [] {
      SqueezedMembers(ts[..|ts| - 1], t);
    }
  }

  lemma {:induction false} SqueezedPrefix(ts: seq<Task>, n: nat)
    requires n <= |ts|
    ensures Squeezed(ts[..n]) <= Squeezed(ts)
  {
    if n < |ts| {
      SqueezedPrefix(ts[..|ts| - 1], n);
      assert ts[..|ts| - 1][..n] == ts[..n];
    } else {
      assert ts[..n] == ts;
    }
  }

  lemma {:induction false} FrontHasEarlier(tasks: seq<Task>, ran: seq<Task>, a: Task, b: Task, j: nat)
    requires (forall i, k :: 0 <= i < k < |tasks| ==> tasks[i] != tasks[k]) && Precedes(tasks, a, b)
    requires Squeezed(ran) <= tasks && j < |ran| && ran[j] == b
    ensures a in ran[..j]
  {
    hide Squeezed;
    var front := ran[..j + 1];
    SqueezedPrefix(ran, j + 1);
    assert front[j] == b;
    SqueezedMembers(front, b);
    var k :| 0 <= k < |Squeezed(front)| && Squeezed(front)[k] == b;
    var x, y :| 0 <= x < y < |tasks| && tasks[x] == a && tasks[y] == b;
    assert tasks[k] == b;
    assert k == y;
    assert Squeezed(front)[x] == a;
    SqueezedMembers(front, a);
    var i :| 0 <= i < j + 1 && front[i] == a;
    assert i != j;
    assert ran[..j][i] == a;
  }

  /** At any time of any run, a task was done only after every task that precedes it
      in the sequence was. */
  lemma {:induction false} DoneOnlyAfter(style: Style, cause: Cause, rounds: seq<Round>, a: Task, b: Task, j: nat)
    requires Precedes(Tasks(style, cause), a, b)
    requires var ran := Run(style, cause, Begin(), rounds).ran; j < |ran| && ran[j] == b
    ensures a in Run(style, cause, Begin(), rounds).ran[..j]
  {
    hide Tasks, Squeezed, Run, PlaceOf, Precedes, Knows;
    var tasks := Tasks(style, cause);
    DoneMeansAllInOrder(style, cause, rounds);
    forall i, k | 0 <= i < k < |tasks|
      ensures tasks[i] != tasks[k]
    {
      TasksDistinct(style, cause, i);
      TasksDistinct(style, cause, k);
    }
    FrontHasEarlier(tasks, Run(style, cause, Begin(), rounds).ran, a, b, j);
  }

  /** The orders that avoid losing traffic: the canary service goes only after the
      routes point to the stable one; on a roll back the routes are first of all, and
      the stable selector is dropped after them; control is released only after the
      workload was resumed; and a blue-green success moves all traffic first. */
  lemma {:induction false} SafeOrders(style: Style, cause: Cause)
    ensures var tasks := Tasks(style, cause);
      && Precedes(tasks, RouteTrafficToStable, RemoveCanaryService)
      && Precedes(tasks, ResumeWorkload, ReleaseWorkloadControl)
      && (cause.RolledBack? ==>
            && Precedes(tasks, RouteTrafficToStable, ResumeWorkload)
            && Precedes(tasks, RouteTrafficToStable, RestoreStableService))
      && (cause.RolledBack? ==>
            && Precedes(tasks, ResumeWorkload, RestoreStableService)
            && (if style.BlueGreen? then Precedes(tasks, RemoveCanaryService, ReleaseWorkloadControl)
                else Precedes(tasks, ReleaseWorkloadControl, RestoreStableService)))
      && (style.BlueGreen? && cause.Success? ==>
            && Precedes(tasks, RouteTrafficToNew, RestoreStableService)
            && Precedes(tasks, RestoreStableService, ResumeWorkload)
            && Precedes(tasks, ResumeWorkload, RouteTrafficToStable))
      && (!cause.RolledBack? && !(style.BlueGreen? && cause.Success?) ==>
            && Precedes(tasks, RestoreStableService, RouteTrafficToStable)
            && Precedes(tasks, RemoveCanaryService, ResumeWorkload))
      && (!cause.RolledBack? ==> Precedes(tasks, RemoveCanaryService, ReleaseWorkloadControl))
      && (cause.RolledBack? ==> Precedes(tasks, RestoreStableService, RemoveCanaryService))
  {
    var tasks := Tasks(style, cause);
    if cause.RolledBack? {
      assert tasks[0] == RouteTrafficToStable && tasks[1] == ResumeWorkload;
      if style.BlueGreen? {
        assert tasks[2] == RestoreStableService && tasks[3] == RemoveCanaryService && tasks[4] == ReleaseWorkloadControl;
      } else {
        assert tasks[2] == ReleaseWorkloadControl && tasks[3] == RestoreStableService && tasks[4] == RemoveCanaryService;
      }
    } else if style.BlueGreen? && cause.Success? {
      assert tasks[0] == RouteTrafficToNew && tasks[1] == RestoreStableService && tasks[2] == ResumeWorkload;
      assert tasks[3] == RouteTrafficToStable && tasks[4] == RemoveCanaryService && tasks[5] == ReleaseWorkloadControl;
    } else {
      assert tasks[0] == RestoreStableService && tasks[1] == RouteTrafficToStable && tasks[2] == RemoveCanaryService;
      assert tasks[3] == ResumeWorkload && tasks[4] == ReleaseWorkloadControl;
    }
  }

  /** The canary service is removed only after the traffic was routed to the stable
      one, whatever the style and the reason. */
  lemma {:induction false} CanaryServiceGoesLast(style: Style, cause: Cause, rounds: seq<Round>, j: nat)
    requires var ran := Run(style, cause, Begin(), rounds).ran; j < |ran| && ran[j] == RemoveCanaryService
    ensures RouteTrafficToStable in Run(style, cause, Begin(), rounds).ran[..j]
  {
    hide Precedes, Run;
    SafeOrders(style, cause);
    DoneOnlyAfter(style, cause, rounds, RouteTrafficToStable, RemoveCanaryService, j);
  }

  /** On a roll back the gateway is restored before the workload is resumed and before
      the stable service loses its selector. */
  lemma {:induction false} RollBackRoutesFirst(style: Style, rounds: seq<Round>, j: nat)
    requires var ran := Run(style, RolledBack, Begin(), rounds).ran;
      j < |ran| && (ran[j] == ResumeWorkload || ran[j] == RestoreStableService)
    ensures RouteTrafficToStable in Run(style, RolledBack, Begin(), rounds).ran[..j]
  {
    hide Precedes, Run;
    SafeOrders(style, RolledBack);
    DoneOnlyAfter(style, RolledBack, rounds, RouteTrafficToStable, Run(style, RolledBack, Begin(), rounds).ran[j], j);
  }

  /* ---- when the reason changes ---- */

  lemma {:induction false} RouteToNewIsForSuccess(style: Style, cause: Cause)
    requires !cause.Success?
    ensures PlaceOf(Tasks(style, cause), RouteTrafficToNew) == |Tasks(style, cause)|
  {
    var tasks := Tasks(style, cause);
    assert forall k :: 0 <= k < |tasks| ==> tasks[k] != RouteTrafficToNew;
  }

  /** A rollout deleted while its blue-green success is at its first task: that task
      is not one of the new reason, so that routing all traffic to the new version is
      taken for the end, and nothing else is ever done. */
  lemma {:induction false} DeletedWhileRoutingToNew(cause: Cause)
    requires !cause.Success?
    ensures Run(BlueGreen, cause, State(At(RouteTrafficToNew), [], false), [Round(true, Done, true)])
            == State(Ended, [RouteTrafficToNew], true)
  {
    hide Tasks, PlaceOf;
    var rounds := [Round(true, Done, true)];
    var s := State(At(RouteTrafficToNew), [], false);
    assert rounds[..0] == [] && Run(BlueGreen, cause, s, []) == s;
    RouteToNewIsForSuccess(BlueGreen, cause);
  }

  /** A rollout deleted while a canary roll back releases control of its workload: the
      next success is taken for the end, and whatever the rounds, at the end the stable
      service still selects one revision and the canary service is still there. */
  lemma {:induction false} DeletedWhileReleasing(rounds: seq<Round>)
    ensures var start := State(At(ReleaseWorkloadControl), [], false);
      && Run(Canary, Deleted, start, [Round(true, Done, true)]) == State(Ended, [ReleaseWorkloadControl], true)
      && var s := Run(Canary, Deleted, start, rounds);
      s.done ==> RestoreStableService !in s.ran && RemoveCanaryService !in s.ran
  {
    var tasks := Tasks(Canary, Deleted);
    assert tasks[4] == ReleaseWorkloadControl && tasks[4..] == [ReleaseWorkloadControl] && |tasks| == 5;
    StoredStepSkipsBefore(Canary, Deleted, 4, rounds);
    SuccessesEnd(Canary, Deleted, 4);
    assert Successes(1) == [Round(true, Done, true)];
    hide Tasks, Run, Successes;
    var s := Run(Canary, Deleted, State(At(ReleaseWorkloadControl), [], false), rounds);
    SqueezedMembers(s.ran, RestoreStableService);
    SqueezedMembers(s.ran, RemoveCanaryService);
  }
}
