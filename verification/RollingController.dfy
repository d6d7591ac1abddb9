/** The controller that performs the rolling update: it counts in loops, sorts
    slices in place, and patches one ReplicaSet after the other. */
module RollingController {
  import opened Arithmetic
  import opened Sorting
  import opened ReplicaSets
  import opened RollingUpdate

  /** A loop that has dealt with `done`, removing `total`, and has `rest` to go. */
  ghost function Resumed(done: seq<ReplicaSet>, total: int, rest: Drained): Drained {
    Drained(done + rest.sets, total + rest.removed, rest.failed)
  }

  lemma {:induction false} ResumedStart(d: Drained)
    ensures Resumed([], 0, d) == d
  {
    assert [] + d.sets == d.sets;
  }

  lemma {:induction false} DrainEnd(done: seq<ReplicaSet>, rest: seq<ReplicaSet>, total: int, max: int, q: Quota, broken: set<string>)
    requires rest == [] || total >= max
    ensures Resumed(done, total, Cleanup(rest, max - total, q, broken)) == Drained(done + rest, total, false)
    ensures Resumed(done, total, ScaleDown(rest, max - total, q, broken)) == Drained(done + rest, total, false)
  {
  }

  lemma {:induction false} CleanupStep(done: seq<ReplicaSet>, rest: seq<ReplicaSet>, total: int, max: int, q: Quota, broken: set<string>)
    requires rest != [] && total < max
    ensures var r := rest[0];
      var k := Min(max - total, r.spec - r.available);
      Resumed(done, total, Cleanup(rest, max - total, q, broken)) ==
        if r.spec == 0 || r.spec == r.available then
          Resumed(done + [r], total, Cleanup(rest[1..], max - total, q, broken))
        else if r.spec - k > r.spec || r.name in broken then Drained(done + rest, total, true)
        else Resumed(done + [Resized(r, r.spec - k, q)], total + k, Cleanup(rest[1..], max - (total + k), q, broken))
  {
    var r := rest[0];
    var k := Min(max - total, r.spec - r.available);
    var skip, go := Cleanup(rest[1..], max - total, q, broken), Cleanup(rest[1..], max - (total + k), q, broken);
    assert max - total - k == max - (total + k);
    assert done + ([r] + skip.sets) == done + [r] + skip.sets;
    if r.spec - k <= r.spec {
      assert done + ([Resized(r, r.spec - k, q)] + go.sets) == done + [Resized(r, r.spec - k, q)] + go.sets;
    }
  }

  lemma {:induction false} ScaleDownStep(done: seq<ReplicaSet>, rest: seq<ReplicaSet>, total: int, max: int, q: Quota, broken: set<string>)
    requires rest != [] && total < max
    ensures var r := rest[0];
      var k := Min(r.spec, max - total);
      Resumed(done, total, ScaleDown(rest, max - total, q, broken)) ==
        if r.spec == 0 then Resumed(done + [r], total, ScaleDown(rest[1..], max - total, q, broken))
        else if r.name in broken then Drained(done + rest, total, true)
        else Resumed(done + [Resized(r, r.spec - k, q)], total + k, ScaleDown(rest[1..], max - (total + k), q, broken))
  {
    var r := rest[0];
    var k := Min(r.spec, max - total);
    var skip, go := ScaleDown(rest[1..], max - total, q, broken), ScaleDown(rest[1..], max - (total + k), q, broken);
    assert max - total - k == max - (total + k);
    assert done + ([r] + skip.sets) == done + [r] + skip.sets;
    assert done + ([Resized(r, r.spec - k, q)] + go.sets) == done + [Resized(r, r.spec - k, q)] + go.sets;
  }

  /** `cleanupUnhealthyReplicas`; `olds` is the slice, its slots overwritten. */
  method CleanupUnhealthyReplicas(oldRSs: seq<ReplicaSet>, q: Quota, maxCleanupCount: int, broken: set<string>)
    returns (olds: seq<ReplicaSet>, totalScaledDown: int, failed: bool)
    ensures Drained(olds, totalScaledDown, failed) == Cleanup(Sort(CreatedBefore, oldRSs), maxCleanupCount, q, broken)
  {
    hide Sort, Cleanup, ScaleDown, Resumed;
    olds := Sort(CreatedBefore, oldRSs);
    ghost var sorted := olds;
    ghost var whole := Cleanup(sorted, maxCleanupCount, q, broken);
    totalScaledDown, failed := 0, false;
    var i := 0;
    ResumedStart(whole);
    assert olds[..0] == [] && olds[0..] == olds;
    while i < |olds| && totalScaledDown < maxCleanupCount
      invariant 0 <= i <= |olds| == |sorted| && olds[i..] == sorted[i..]
      invariant whole == Resumed(olds[..i], totalScaledDown, Cleanup(sorted[i..], maxCleanupCount - totalScaledDown, q, broken))
    {
      var target := olds[i];
      ghost var done := olds[..i];
      assert target == olds[i..][0] == sorted[i..][0] && sorted[i..][1..] == sorted[i + 1..];
      CleanupStep(done, sorted[i..], totalScaledDown, maxCleanupCount, q, broken);
      if target.spec == 0 || target.spec == target.available {
      } else {
        var scaledDownCount := Min(maxCleanupCount - totalScaledDown, target.spec - target.available);
        var newReplicasCount := target.spec - scaledDownCount;
        if newReplicasCount > target.spec || target.name in broken {
          assert olds == done + olds[i..];
          return olds, totalScaledDown, true;
        }
        olds := olds[i := Resized(target, newReplicasCount, q)];
        totalScaledDown := totalScaledDown + scaledDownCount;
      }
      assert olds[..i + 1] == done + [olds[i]];
      i := i + 1;
    }
    DrainEnd(olds[..i], sorted[i..], totalScaledDown, maxCleanupCount, q, broken);
    assert olds == olds[..i] + olds[i..];
  }

  /** The loop of `scaleDownOldReplicaSetsForRollingUpdate`. */
  method ScaleDownInOrder(oldRSs: seq<ReplicaSet>, q: Quota, totalScaleDownCount: int, broken: set<string>)
    returns (olds: seq<ReplicaSet>, totalScaledDown: int, failed: bool)
    ensures Drained(olds, totalScaledDown, failed) == ScaleDown(oldRSs, totalScaleDownCount, q, broken)
    ensures |olds| == |oldRSs|
  {
    hide Cleanup, ScaleDown, Resumed;
    olds := oldRSs;
    ghost var whole := ScaleDown(oldRSs, totalScaleDownCount, q, broken);
    totalScaledDown, failed := 0, false;
    var i := 0;
    ResumedStart(whole);
    assert olds[..0] == [] && olds[0..] == olds;
    while i < |olds| && totalScaledDown < totalScaleDownCount
      invariant 0 <= i <= |olds| == |oldRSs| && olds[i..] == oldRSs[i..]
      invariant whole == Resumed(olds[..i], totalScaledDown, ScaleDown(oldRSs[i..], totalScaleDownCount - totalScaledDown, q, broken))
    {
      var target := olds[i];
      ghost var done := olds[..i];
      assert target == olds[i..][0] == oldRSs[i..][0] && oldRSs[i..][1..] == oldRSs[i + 1..];
      ScaleDownStep(done, oldRSs[i..], totalScaledDown, totalScaleDownCount, q, broken);
      if target.spec != 0 {
        var scaleDownCount := Min(target.spec, totalScaleDownCount - totalScaledDown);
        if target.name in broken {
          assert olds == done + olds[i..];
          return olds, totalScaledDown, true;
        }
        olds := olds[i := Resized(target, target.spec - scaleDownCount, q)];
        totalScaledDown := totalScaledDown + scaleDownCount;
      }
      assert olds[..i + 1] == done + [olds[i]];
      i := i + 1;
    }
    DrainEnd(olds[..i], oldRSs[i..], totalScaledDown, totalScaleDownCount, q, broken);
    assert olds == olds[..i] + olds[i..];
  }

  class DeploymentController {
    var newRS: ReplicaSet
    var oldRSs: seq<ReplicaSet>

    constructor (newRS: ReplicaSet, oldRSs: seq<ReplicaSet>)
      ensures Value() == Fleet(newRS, oldRSs)
    {
      this.newRS, this.oldRSs := newRS, oldRSs;
    }

    function Value(): Fleet
      reads this
    {
      Fleet(newRS, oldRSs)
    }

    method ReconcileNewReplicaSet(q: Quota, broken: set<string>) returns (scaled: bool, failed: bool)
      modifies this`newRS
      ensures NewOutcome(newRS, scaled, failed) == ReconcileNew(old(Value()), q, broken)
    {
      scaled, failed := false, false;
      if newRS.spec == q.replicas {
        return;
      }
      var target := q.replicas;
      if newRS.spec < q.replicas {
        target := NewReplicas(Value(), q);
      }
      if newRS.spec != target {
        if newRS.name in broken {
          failed := true;
        } else {
          newRS := Resized(newRS, target, q);
          scaled := true;
        }
      }
    }

    /** `scaleDownOldReplicaSetsForRollingUpdate` on a slice of `slots`, the array
        behind it. The slice has spare capacity when `slots` is longer than `n`;
        the new set was then appended into that very array. */
    method ScaleDownOldReplicaSets(slots: seq<ReplicaSet>, n: nat, q: Quota, broken: set<string>)
      returns (totalScaledDown: int, failed: bool)
      requires n == |slots| || (n == |slots| - 1 && slots[n] == newRS)
      modifies this
      ensures var (fleet, drained) := ScaleDownOlds(Fleet(old(newRS), slots[..n]), q, n < |slots|, broken);
        Value() == fleet && totalScaledDown == drained.removed && failed == drained.failed
    {
      hide ScaleDown, Sum, Sort;
      var available := CountAvailable(slots[..n]);
      var spare := available + newRS.available - (q.replicas - q.unavailable);
      oldRSs := slots[..n];
      if spare <= 0 {
        return 0, false;
      }
      var sorted := Sort(RevisionAfter, slots[..n]);
      if n == |slots| {
        var total := Min(spare, ScaleDownLimit(sorted, newRS.spec, q));
        oldRSs, totalScaledDown, failed := ScaleDownInOrder(sorted, q, total, broken);
      } else {
        var all := Sort(CreatedBefore, sorted + [newRS]);
        assert all == ByAge(newRS, sorted);
        var i := Position(all, newRS);
        var listed := all[..n];
        var total := Min(spare, ScaleDownLimit(listed, newRS.spec, q));
        var after;
        after, totalScaledDown, failed := ScaleDownInOrder(listed, q, total, broken);
        after := after + all[n..];
        newRS, oldRSs := after[i], after[..i] + after[i + 1..];
      }
    }

    method ScaleUpOldReplicaSets(active: seq<ReplicaSet>, idle: seq<ReplicaSet>, count: int, q: Quota, broken: set<string>)
      modifies this`oldRSs
      ensures oldRSs == ScaleUpOlds(active, count, q, broken) + idle
    {
      hide Sort;
      if count <= 0 || |active| == 0 {
        oldRSs := active + idle;
        return;
      }
      var sorted := Sort(LargerOrOlder, active);
      if sorted[0].name !in broken {
        ghost var before := sorted;
        sorted := sorted[0 := Resized(sorted[0], sorted[0].spec + count, q)];
        assert sorted == [sorted[0]] + before[1..];
      }
      oldRSs := sorted + idle;
    }

    method ReconcileOldReplicaSets(q: Quota, shared: bool, broken: set<string>)
      modifies this
      ensures Value() == ReconcileOlds(old(Value()), q, shared, broken)
    {
      hide Active, Idle, Sum, Sort, ScaleDownOlds, Cleanup, ScaleUpOlds;
      var active, idle := Active(oldRSs), Idle(oldRSs);
      var oldPodsCount := CountReplicas(active);
      if oldPodsCount == 0 {
        return;
      }
      var allOldPods := CountReplicas(oldRSs);
      var limit := ScaleDownLimit(active, newRS.spec, q);
      if limit <= 0 {
        ScaleUpOldReplicaSets(active, idle, -limit, q, broken);
        return;
      }
      var newUnavailable := newRS.spec - newRS.available;
      var maxScaledDown := Min(allOldPods + newRS.spec - (q.replicas - q.unavailable) - newUnavailable, limit);
      if maxScaledDown <= 0 {
        return;
      }
      var olds, cleaned, failed := CleanupUnhealthyReplicas(active, q, maxScaledDown, broken);
      if failed {
        oldRSs := olds + idle;
        return;
      }
      var slots := if shared then olds + [newRS] else olds;
      assert slots[..|olds|] == olds;
      var scaledDown, scaleFailed := ScaleDownOldReplicaSets(slots, |olds|, q, broken);
      oldRSs := oldRSs + idle;
    }

    /** `rolloutRolling`: one round of the rolling update. */
    method RolloutRolling(q: Quota, shared: bool, broken: set<string>)
      modifies this
      ensures Value() == Round(old(Value()), q, shared, broken)
    {
      hide ReconcileOlds, Sum;
      var scaled, failed := ReconcileNewReplicaSet(q, broken);
      if failed || scaled {
        return;
      }
      ReconcileOldReplicaSets(q, shared, broken);
    }
  }
}
