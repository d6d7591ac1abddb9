/** Grace periods after changes of network resources (grace/grace_wrapper.go,
    grace/grace_expectations.go). Times and durations are whole nanoseconds. */
module Grace {
  import opened Arithmetic

  /** When a function last modified something, per key and action. */
  type Cache = map<string, map<string, int>>

  function Recorded(c: Cache, key: string, action: string): Option<int> {
    if key in c && action in c[key] then Some(c[key][action]) else None
  }

  /* ---- the operations ---- */

  function Expected(c: Cache, key: string, action: string, now: int): Cache {
    c[key := (if key in c then c[key] else map[])[action := now]]
  }

  function Observed(c: Cache, key: string, action: string): Cache {
    if key !in c then c
    else if c[key] - {action} == map[] then c - {key}
    else c[key := c[key] - {action}]
  }

  function Fresh(times: map<string, int>, interval: int, now: int): map<string, int> {
    map a | a in times && now - times[a] <= interval :: times[a]
  }

  function Cleaned(c: Cache, interval: int, now: int): Cache {
    map k | k in c && Fresh(c[k], interval, now) != map[] :: Fresh(c[k], interval, now)
  }

  /** How the wrapped function ended. */
  datatype Result = Failed | Modified | Unmodified

  /** `runWithGraceSeconds`: the cache, whether to retry, and how long to wait. */
  function Called(c: Cache, key: string, action: string, grace: int, result: Result, now: int): (Cache, bool, int) {
    if result.Failed? then (c, true, 0)
    else if grace == 0 then (Observed(c, key, action), false, 0)
    else if result.Modified? then (Expected(c, key, action, now), true, grace)
    else
      var time := Recorded(c, key, action);
      if time.Some? && grace - (now - time.value) > 0 then (c, true, grace - (now - time.value))
      else (Observed(c, key, action), false, 0)
  }

  class GraceExpectations {
    var controllerCache: Cache

    constructor ()
      ensures controllerCache == map[]
    {
      controllerCache := map[];
    }

    method Expect(key: string, action: string, now: int)
      modifies this
      ensures controllerCache == Expected(old(controllerCache), key, action, now)
    {
      var expectations := if key in controllerCache then controllerCache[key] else map[];
      controllerCache := controllerCache[key := expectations[action := now]];
    }

    method Observe(key: string, action: string)
      modifies this
      ensures controllerCache == Observed(old(controllerCache), key, action)
    {
      if key !in controllerCache {
        return;
      }
      var expectations := controllerCache[key] - {action};
      if |expectations| == 0 {
        assert expectations == map[];
        controllerCache := controllerCache - {key};
      } else {
        controllerCache := controllerCache[key := expectations];
      }
    }

    method SatisfiedExpectations(key: string, action: string, grace: int, now: int) returns (satisfied: bool, remaining: int)
      ensures var time := Recorded(controllerCache, key, action);
        && satisfied == (time.None? || grace - (now - time.value) <= 0)
        && remaining == if satisfied then 0 else grace - (now - time.value)
    {
      if key !in controllerCache || action !in controllerCache[key] {
        return true, 0;
      }
      remaining := grace - (now - controllerCache[key][action]);
      if remaining <= 0 {
        return true, 0;
      }
      satisfied := false;
    }

    method CleanOutdatedItems(interval: int, now: int)
      modifies this
      ensures controllerCache == Cleaned(old(controllerCache), interval, now)
    {
      hide Fresh;
      var before := controllerCache;
      var keys := before.Keys;
      while keys != {}
        invariant keys <= before.Keys
        invariant forall k :: k in controllerCache ==> k in before
        invariant forall k :: k in before ==>
          (k in controllerCache <==> k in keys || Fresh(before[k], interval, now) != map[])
        invariant forall k :: k in controllerCache ==>
          controllerCache[k] == if k in keys then before[k] else Fresh(before[k], interval, now)
        decreases |keys|
      {
        var key :| key in keys;
        var expectations := CleanTimes(before[key], interval, now);
        if |expectations| == 0 {
          controllerCache := controllerCache - {key};
        } else {
          controllerCache := controllerCache[key := expectations];
        }
        keys := keys - {key};
      }
    }

    method CleanTimes(times: map<string, int>, interval: int, now: int) returns (kept: map<string, int>)
      ensures kept == Fresh(times, interval, now)
    {
      kept := times;
      var actions := times.Keys;
      while actions != {}
        invariant actions <= times.Keys
        invariant forall a :: a in kept ==> a in times && kept[a] == times[a]
        invariant forall a :: a in times ==> (a in kept <==> a in actions || now - times[a] <= interval)
        decreases |actions|
      {
        var action :| action in actions;
        if now - times[action] > interval {
          kept := kept - {action};
        }
        actions := actions - {action};
      }
    }

    method RunWithGraceSeconds(key: string, action: string, grace: int, result: Result, now: int) returns (retry: bool, wait: int)
      modifies this
      ensures (controllerCache, retry, wait) == Called(old(controllerCache), key, action, grace, result, now)
    {
      if result.Failed? {
        return true, 0;
      }
      if grace == 0 {
        Observe(key, action);
        return false, 0;
      }
      if result.Modified? {
        Expect(key, action, now);
        return true, grace;
      }
      var satisfied, remaining := SatisfiedExpectations(key, action, grace, now);
      if !satisfied {
        return true, remaining;
      }
      Observe(key, action);
      return false, 0;
    }
  }

  /* ---- runs ---- */

  datatype Event =
    | Call(key: string, action: string, grace: int, result: Result, now: int)
    | Clean(now: int)

  function Next(c: Cache, interval: int, e: Event): Cache {
    match e
    case Call(key, action, grace, result, now) => Called(c, key, action, grace, result, now).0
    case Clean(now) => Cleaned(c, interval, now)
  }

  function Run(interval: int, events: seq<Event>): Cache {
    if events == [] then map[] else Next(Run(interval, events[..|events| - 1]), interval, events[|events| - 1])
  }

  /** Time does not run backwards, and the grace period of the key and action stays
      the same; those of others are free. */
  predicate Orderly(events: seq<Event>, key: string, action: string, grace: int) {
    && (forall i, j :: 0 <= i < j < |events| ==> events[i].now <= events[j].now)
    && forall k :: 0 <= k < |events| && events[k].Call? && events[k].key == key && events[k].action == action ==> events[k].grace == grace
  }

  /** When the function of this key and action last modified something. */
  function LastModified(events: seq<Event>, key: string, action: string): Option<int> {
    if events == [] then None
    else
      var last := events[|events| - 1];
      if last.Call? && last.key == key && last.action == action && last.result.Modified? then Some(last.now)
      else LastModified(events[..|events| - 1], key, action)
  }

  lemma {:induction false} CallRecords(c: Cache, e: Event, key: string, action: string)
    requires e.Call?
    ensures var (c', retry, wait) := Called(c, e.key, e.action, e.grace, e.result, e.now);
      Recorded(c', key, action) ==
        if key != e.key || action != e.action || e.result.Failed? then Recorded(c, key, action)
        else if !retry then None
        else if e.result.Modified? then Some(e.now)
        else Recorded(c, key, action)
  {
    if key == e.key && action != e.action && key in c && action in c[key] {
      assert action in c[key] - {e.action};
    }
  }

  lemma {:induction false} CleanRecords(c: Cache, interval: int, now: int, key: string, action: string)
    ensures var time := Recorded(c, key, action);
      Recorded(Cleaned(c, interval, now), key, action) ==
        if time.Some? && now - time.value <= interval then time else None
  {
    if key in c && action in c[key] {
      var kept := Fresh(c[key], interval, now);
      assert now - c[key][action] <= interval ==> action in kept;
    }
  }

  /** The record of a modification is kept until its grace period is over. */
  lemma {:induction false} KeptForGrace(interval: int, events: seq<Event>, key: string, action: string, grace: int)
    requires grace > 0 && grace <= interval + 1 && Orderly(events, key, action, grace)
    ensures var time, kept := LastModified(events, key, action), Recorded(Run(interval, events), key, action);
      && (kept.Some? ==> kept == time)
      && (time.Some? && kept.None? ==> events[|events| - 1].now >= time.value + grace)
    decreases |events|
  {
    assert Recorded(map[], key, action) == None;
    hide Cleaned, Recorded, Expected, Observed;
    if events != [] {
      var front, last := events[..|events| - 1], events[|events| - 1];
      assert Orderly(front, key, action, grace);
      KeptForGrace(interval, front, key, action, grace);
      if front != [] {
        assert front[|front| - 1] == events[|front| - 1];
      }
      var c := Run(interval, front);
      if last.Call? {
        assert events[|front|] == last;
        CallRecords(c, last, key, action);
      } else {
        CleanRecords(c, interval, last.now, key, action);
      }
    }
  }

  /** The other endings: a failure is retried at once and changes nothing; a modification
      is waited for as long as the grace period; and without a grace period nothing is
      waited for, nor remembered. */
  lemma {:induction false} OtherEndings(c: Cache, key: string, action: string, grace: int, result: Result, now: int)
    ensures var (c', retry, wait) := Called(c, key, action, grace, result, now);
      && (result.Failed? ==> c' == c && retry && wait == 0)
      && (result.Modified? && grace != 0 ==> retry && wait == grace && Recorded(c', key, action) == Some(now))
      && (!result.Failed? && grace == 0 ==> !retry && wait == 0 && Recorded(c', key, action).None?)
  {
  }

  /** No key is kept without an action. */
  lemma {:induction false} NoKeyIsEmpty(interval: int, events: seq<Event>)
    ensures forall key :: key in Run(interval, events) ==> Run(interval, events)[key] != map[]
  {
    if events != [] {
      NoKeyIsEmpty(interval, events[..|events| - 1]);
      var c, last := Run(interval, events[..|events| - 1]), events[|events| - 1];
      if last.Call? && last.result.Modified? && last.grace != 0 {
        assert last.action in Expected(c, last.key, last.action, last.now)[last.key];
      }
    }
  }

  /** After any run, a call that modifies nothing says "no retry" if and only if
      nothing was ever modified or the grace period has passed since; and else it is to
      be retried when the rest of that period is over. */
  lemma {:induction false} NoRetryExactlyAfterGrace(interval: int, events: seq<Event>, e: Event)
    requires e.Call? && e.result.Unmodified? && 0 < e.grace <= interval + 1
    requires Orderly(events + [e], e.key, e.action, e.grace)
    ensures var time := LastModified(events, e.key, e.action);
      var (_, retry, wait) := Called(Run(interval, events), e.key, e.action, e.grace, e.result, e.now);
      && (!retry <==> time.None? || e.now >= time.value + e.grace)
      && wait == if retry then time.value + e.grace - e.now else 0
  {
    hide Run;
    var all := events + [e];
    assert Orderly(events, e.key, e.action, e.grace) by {
      assert forall k :: 0 <= k < |events| ==> events[k] == all[k];
    }
    KeptForGrace(interval, events, e.key, e.action, e.grace);
    if events != [] {
      assert all[|events| - 1].now <= all[|events|].now;
    }
  }

  /** No retry is ever told before the grace period is over. */
  ghost predicate WaitsLongEnough(grace: int, interval: int) {
    forall events: seq<Event>, e: Event ::
      e.Call? && e.grace == grace && Orderly(events + [e], e.key, e.action, grace) &&
      !Called(Run(interval, events), e.key, e.action, e.grace, e.result, e.now).1 ==>
        var time := LastModified(events, e.key, e.action);
        time.None? || e.now >= time.value + grace
  }

  /** A cleaner that comes too early forgets the modification. */
  lemma CleanerForgets(grace: int, interval: int)
    requires interval >= 0 && grace > interval + 1
    ensures !WaitsLongEnough(grace, interval)
  {
    var modifying := Call("", "", grace, Modified, 0);
    var clean := Clean(interval + 1);
    var e := Call("", "", grace, Unmodified, interval + 1);
    var events := [modifying, clean];
    assert events[..1] == [modifying] && [modifying][..0] == [];
    assert Run(interval, [modifying]) == map["" := map["" := 0]];
    assert Fresh(map["" := 0], interval, interval + 1) == map[];
    assert Run(interval, events) == map[];
    assert LastModified(events, "", "") == Some(0);
    assert Orderly(events + [e], "", "", grace);
  }

  /** The grace period is kept in every run if and only if it is not longer than the
      cleaner's interval, by more than the nanosecond that "more than" leaves. */
  lemma {:induction false} WaitsLongEnoughExactlyWhen(grace: int, interval: int)
    requires grace > 0 && interval >= 0
    ensures WaitsLongEnough(grace, interval) <==> grace <= interval + 1
  {
    if grace > interval + 1 {
      CleanerForgets(grace, interval);
    } else {
      forall events: seq<Event>, e: Event
        | e.Call? && e.grace == grace && Orderly(events + [e], e.key, e.action, grace)
          && !Called(Run(interval, events), e.key, e.action, e.grace, e.result, e.now).1
        ensures var time := LastModified(events, e.key, e.action); time.None? || e.now >= time.value + grace
      {
        NoRetryExactlyAfterGrace(interval, events, e);
      }
    }
  }
}
