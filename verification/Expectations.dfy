/** Waiting for one's own writes to show up (expectation/resource_expectations.go).
    The store keeps a record per controller with a set of names per action; it
    means a plain set of things expected and not yet observed. */
module Expectations {
  import opened Arithmetic

  datatype Action = Create | Delete

  /** `names` has an entry for an action that was ever expected in this record;
      `since` is when the record was first found unsatisfied. */
  datatype Record = Record(names: map<Action, set<string>>, since: Option<int>)

  type Cache = map<string, Record>

  /** Something that a controller waits for. */
  datatype Item = Item(key: string, action: Action, name: string)

  /* ---- the meaning ---- */

  predicate IsPending(c: Cache, i: Item) {
    i.key in c && i.action in c[i.key].names && i.name in c[i.key].names[i.action]
  }

  predicate SomeName(r: Record) {
    exists a :: a in r.names && r.names[a] != {}
  }

  /** No record is left behind empty. */
  ghost predicate NoEmptyRecord(c: Cache) {
    forall k :: k in c ==> SomeName(c[k])
  }

  /* ---- the operations ---- */

  function Expected(c: Cache, i: Item): Cache {
    var r := if i.key in c then c[i.key] else Record(map[], None);
    var names := if i.action in r.names then r.names[i.action] else {};
    c[i.key := r.(names := r.names[i.action := names + {i.name}])]
  }

  function Observed(c: Cache, i: Item): Cache {
    if i.key !in c || i.action !in c[i.key].names then c
    else
      var r := c[i.key];
      var r' := r.(names := r.names[i.action := r.names[i.action] - {i.name}]);
      if SomeName(r') then c[i.key := r'] else c - {i.key}
  }

  /** The new cache, whether all is satisfied, and for how long it was not. */
  function Checked(c: Cache, key: string, now: int): (Cache, bool, int) {
    if key !in c then (c, true, 0)
    else if SomeName(c[key]) then
      var since := if c[key].since.Some? then c[key].since.value else now;
      (c[key := c[key].(since := Some(since))], false, now - since)
    else (c - {key}, true, 0)
  }

  class ResourceExpectations {
    var controllerCache: Cache

    constructor ()
      ensures controllerCache == map[]
    {
      controllerCache := map[];
    }

    method Expect(key: string, action: Action, name: string)
      modifies this
      ensures controllerCache == Expected(old(controllerCache), Item(key, action, name))
    {
      var record := if key in controllerCache then controllerCache[key] else Record(map[], None);
      if action in record.names {
        record := record.(names := record.names[action := record.names[action] + {name}]);
      } else {
        assert {} + {name} == {name};
        record := record.(names := record.names[action := {name}]);
      }
      controllerCache := controllerCache[key := record];
    }

    method Observe(key: string, action: Action, name: string)
      modifies this
      ensures controllerCache == Observed(old(controllerCache), Item(key, action, name))
    {
      if key !in controllerCache {
        return;
      }
      var record := controllerCache[key];
      if action !in record.names {
        return;
      }
      record := record.(names := record.names[action := record.names[action] - {name}]);
      var actions := record.names.Keys;
      var empty := true;
      while actions != {} && empty
        invariant actions <= record.names.Keys
        invariant empty ==> forall a :: a in record.names && a !in actions ==> record.names[a] == {}
        invariant !empty ==> SomeName(record)
        decreases |actions|
      {
        var a :| a in actions;
        if record.names[a] != {} {
          empty := false;
        }
        actions := actions - {a};
      }
      if empty {
        controllerCache := controllerCache - {key};
      } else {
        controllerCache := controllerCache[key := record];
      }
    }

    method SatisfiedExpectations(key: string, now: int) returns (satisfied: bool, unsatisfiedFor: int)
      modifies this
      ensures (controllerCache, satisfied, unsatisfiedFor) == Checked(old(controllerCache), key, now)
    {
      if key !in controllerCache {
        return true, 0;
      }
      var record := controllerCache[key];
      var actions := record.names.Keys;
      while actions != {}
        invariant actions <= record.names.Keys
        invariant forall a :: a in record.names && a !in actions ==> record.names[a] == {}
        invariant controllerCache == old(controllerCache)
        decreases |actions|
      {
        var a :| a in actions;
        if record.names[a] != {} {
          assert SomeName(record);
          if record.since.None? {
            record := record.(since := Some(now));
          }
          controllerCache := controllerCache[key := record];
          return false, now - record.since.value;
        }
        actions := actions - {a};
      }
      controllerCache := controllerCache - {key};
      return true, 0;
    }

    method DeleteExpectations(key: string)
      modifies this
      ensures controllerCache == old(controllerCache) - {key}
    {
      controllerCache := controllerCache - {key};
    }
  }

  /* ---- runs ---- */

  datatype Op = Expect(i: Item) | Observe(i: Item) | Check(key: string, now: int) | Forget(key: string)

  function Next(c: Cache, op: Op): Cache {
    match op
    case Expect(i) => Expected(c, i)
    case Observe(i) => Observed(c, i)
    case Check(key, now) => Checked(c, key, now).0
    case Forget(key) => c - {key}
  }

  function Run(ops: seq<Op>): Cache {
    if ops == [] then map[] else Next(Run(ops[..|ops| - 1]), ops[|ops| - 1])
  }

  /** What is expected after a run, by the plain meaning of the operations. */
  ghost function Pending(ops: seq<Op>): iset<Item> {
    if ops == [] then iset{}
    else
      var before := Pending(ops[..|ops| - 1]);
      match ops[|ops| - 1]
      case Expect(i) => before + iset{i}
      case Observe(i) => before - iset{i}
      case Check(_, _) => before
      case Forget(key) => iset i | i in before && i.key != key
  }

  lemma {:induction false} NextMeans(c: Cache, op: Op, i: Item)
    requires NoEmptyRecord(c)
    ensures NoEmptyRecord(Next(c, op))
    ensures IsPending(Next(c, op), i) <==>
      match op
      case Expect(j) => i == j || IsPending(c, i)
      case Observe(j) => i != j && IsPending(c, i)
      case Check(_, _) => IsPending(c, i)
      case Forget(key) => i.key != key && IsPending(c, i)
  {
    match op {
      case Expect(j) =>
        var c' := Expected(c, j);
        assert j.name in c'[j.key].names[j.action];
        assert forall k :: k in c && k != j.key ==> c'[k] == c[k];
      case Observe(j) =>
        var c' := Observed(c, j);
        assert forall k :: k in c' && k != j.key ==> c'[k] == c[k];
        if IsPending(c, i) && i != j && i.key == j.key && j.action in c[j.key].names {
          var names := c[j.key].names[j.action := c[j.key].names[j.action] - {j.name}];
          assert i.name in names[i.action];
          assert SomeName(c[j.key].(names := names));
        }
      case Check(key, now) =>
        var c' := Checked(c, key, now).0;
        assert forall k :: k in c' ==> c'[k].names == c[k].names;
        forall k | k in c'
          ensures SomeName(c'[k])
        {
          assert SomeName(c[k]);
        }
      case Forget(key) =>
    }
  }

  /** The cache with its clean-ups means the plain set: after any run exactly what
      was expected and neither observed nor forgotten since is pending. */
  lemma {:induction false} CacheMeansPending(ops: seq<Op>)
    ensures NoEmptyRecord(Run(ops))
    ensures forall i :: IsPending(Run(ops), i) <==> i in Pending(ops)
  {
    hide Next;
    if ops == [] {
    } else {
      var front, last := ops[..|ops| - 1], ops[|ops| - 1];
      CacheMeansPending(front);
      NextMeans(Run(front), last, Item("", Create, ""));
      forall i
        ensures IsPending(Run(ops), i) <==> i in Pending(ops)
      {
        NextMeans(Run(front), last, i);
      }
    }
  }

  /** A check is satisfied if and only if nothing is pending for the key. */
  lemma {:induction false} SatisfiedMeansNothingPending(ops: seq<Op>, key: string, now: int)
    ensures Checked(Run(ops), key, now).1 <==> forall i :: i in Pending(ops) ==> i.key != key
  {
    CacheMeansPending(ops);
    var c := Run(ops);
    if key in c {
      assert SomeName(c[key]);
      var a :| a in c[key].names && c[key].names[a] != {};
      var name :| name in c[key].names[a];
      assert IsPending(c, Item(key, a, name));
    } else {
      assert forall i :: i in Pending(ops) ==> IsPending(c, i);
    }
  }

  /* ---- the timeout ---- */

  /** The first check of a key that found it waiting, since it last waited for
      nothing. */
  ghost function UnsatisfiedSince(ops: seq<Op>, key: string): Option<int> {
    if ops == [] then None
    else
      var before, last := UnsatisfiedSince(ops[..|ops| - 1], key), ops[|ops| - 1];
      if forall i :: i in Pending(ops) ==> i.key != key then None
      else if last.Check? && last.key == key && before.None? then Some(last.now)
      else before
  }

  lemma {:induction false} KeyWaits(ops: seq<Op>, key: string)
    ensures key in Run(ops) <==> exists i :: i in Pending(ops) && i.key == key
  {
    CacheMeansPending(ops);
    var c := Run(ops);
    if key in c {
      assert SomeName(c[key]);
      var a :| a in c[key].names && c[key].names[a] != {};
      var name :| name in c[key].names[a];
      assert IsPending(c, Item(key, a, name));
    }
    if i :| i in Pending(ops) && i.key == key {
      assert IsPending(c, i);
    }
  }

  lemma {:induction false} SinceMeans(ops: seq<Op>, key: string)
    ensures UnsatisfiedSince(ops, key) == if key in Run(ops) then Run(ops)[key].since else None
  {
    KeyWaits(ops, key);
    if ops != [] {
      var front, last := ops[..|ops| - 1], ops[|ops| - 1];
      SinceMeans(front, key);
      KeyWaits(front, key);
      CacheMeansPending(front);
      hide Pending;
      var c := Run(front);
      assert key in c ==> SomeName(c[key]);
    }
  }

  /** The duration a failed check reports is the time since the first failed check
      of an unbroken stretch in which the key waited for something: a timeout never
      counts time from before. */
  lemma {:induction false} TimeoutIsUnbroken(ops: seq<Op>, key: string, now: int)
    ensures var (_, satisfied, duration) := Checked(Run(ops), key, now);
      if satisfied then duration == 0
      else duration == now - (match UnsatisfiedSince(ops, key) case Some(t) => t case None => now)
  {
    hide UnsatisfiedSince;
    SinceMeans(ops, key);
  }
}
