/** Updating a native DaemonSet by deleting pods (nativedaemoset_util.go,
    nativedaemonset_controller.go): which pods, how many, in which portions, and
    not before the deletions of the last round were seen. */
module DaemonSet {
  import opened Arithmetic
  import opened Expectations
  import Sorting

  datatype Pod = Pod(uid: string, terminating: bool, ready: bool, pending: bool, updated: bool, cost: int, created: int)

  /* ---- which pods ---- */

  /** The order of `SortPodsForDeletion`. */
  predicate DeletedBefore(a: Pod, b: Pod) {
    if a.pending != b.pending then a.pending
    else if a.ready != b.ready then b.ready
    else if a.cost != b.cost then a.cost < b.cost
    else a.created > b.created
  }

  function CountUpdated(pods: seq<Pod>): nat {
    if pods == [] then 0 else CountUpdated(pods[..|pods| - 1]) + if pods[|pods| - 1].updated then 1 else 0
  }

  function CountUpdatedNotReady(pods: seq<Pod>): nat {
    if pods == [] then 0
    else CountUpdatedNotReady(pods[..|pods| - 1]) + if pods[|pods| - 1].updated && !pods[|pods| - 1].ready then 1 else 0
  }

  function Outdated(pods: seq<Pod>): seq<Pod> {
    if pods == [] then []
    else
      var before, last := Outdated(pods[..|pods| - 1]), pods[|pods| - 1];
      if last.updated then before else before + [last]
  }

  method ClassifyPods(pods: seq<Pod>) returns (updatedPods: int, updatedAndNotReady: int, podsToDelete: seq<Pod>)
    ensures updatedPods == CountUpdated(pods) && updatedAndNotReady == CountUpdatedNotReady(pods)
    ensures podsToDelete == Outdated(pods)
  {
    updatedPods, updatedAndNotReady, podsToDelete := 0, 0, [];
    for i := 0 to |pods|
      invariant updatedPods == CountUpdated(pods[..i]) && updatedAndNotReady == CountUpdatedNotReady(pods[..i])
      invariant podsToDelete == Outdated(pods[..i])
    {
      assert pods[..i + 1][..i] == pods[..i];
      if pods[i].updated {
        updatedPods := updatedPods + 1;
        if !pods[i].ready {
          updatedAndNotReady := updatedAndNotReady + 1;
        }
      } else {
        podsToDelete := podsToDelete + [pods[i]];
      }
    }
    assert pods[..|pods|] == pods;
  }

  /** What is still allowed of a list, with `need` deletions wanted and
      `unavailable` pods counted already. */
  function Quota(pods: seq<Pod>, need: int, unavailable: int, max: int): nat {
    if pods == [] || need <= 0 then 0
    else if pods[0].terminating then Quota(pods[1..], need, unavailable + 1, max)
    else if !pods[0].ready then 1 + Quota(pods[1..], need - 1, unavailable, max)
    else if unavailable >= max then 0
    else 1 + Quota(pods[1..], need - 1, unavailable + 1, max)
  }

  method CalculateDeletionQuota(pods: seq<Pod>, need: int, updatedAndNotReady: int, max: int) returns (actual: nat)
    ensures actual == Quota(pods, need, updatedAndNotReady, max)
  {
    actual := 0;
    var unavailable := updatedAndNotReady;
    for i := 0 to |pods|
      invariant actual + Quota(pods[i..], need - actual, unavailable, max) == Quota(pods, need, updatedAndNotReady, max)
    {
      assert pods[i..][1..] == pods[i + 1..];
      if actual >= need {
        break;
      }
      if pods[i].terminating {
        unavailable := unavailable + 1;
      } else if !pods[i].ready {
        actual := actual + 1;
      } else {
        if unavailable >= max {
          break;
        }
        unavailable := unavailable + 1;
        actual := actual + 1;
      }
    }
  }

  /** The pods chosen for deletion: a prefix of the sorted list. */
  function Chosen(pods: seq<Pod>, desired: int, max: int): seq<Pod> {
    var need := desired - CountUpdated(pods);
    if need <= 0 then []
    else
      var sorted := Sorting.Sort(DeletedBefore, Outdated(pods));
      var quota := Quota(sorted, need, CountUpdatedNotReady(pods), max);
      if |sorted| > quota then sorted[..quota] else sorted
  }

  method AnalyzePods(pods: seq<Pod>, desired: int, max: int) returns (toDelete: seq<Pod>)
    ensures toDelete == Chosen(pods, desired, max)
  {
    var updatedPods, updatedAndNotReady, podsToDelete := ClassifyPods(pods);
    if updatedPods >= desired {
      return [];
    }
    podsToDelete := Sorting.Sort(DeletedBefore, podsToDelete);
    var actual := CalculateDeletionQuota(podsToDelete, desired - updatedPods, updatedAndNotReady, max);
    toDelete := podsToDelete;
    if |podsToDelete| > actual {
      toDelete := podsToDelete[..actual];
    }
  }

  /* ---- slow start ---- */

  /** How a call for one pod ended. */
  datatype Answer = Deleted | AlreadyGone | Refused

  predicate AnyRefused(answers: seq<Answer>, lo: nat, hi: nat)
    requires lo <= hi <= |answers|
  {
    exists k :: lo <= k < hi && answers[k].Refused?
  }

  /** Where the calls end, if they have come to `start` and the next portion is to
      have `size` of them. */
  function SlowStart(answers: seq<Answer>, start: nat, size: int): (end: nat)
    requires start <= |answers|
    ensures start <= end <= |answers|
    decreases |answers| - start
  {
    var portion := Min(size, |answers| - start);
    if portion <= 0 then start
    else if AnyRefused(answers, start, start + portion) then start + portion
    else SlowStart(answers, start + portion, 2 * portion)
  }

  /** A refusal anywhere in the list is met by the calls. */
  lemma {:induction false} RefusedIsMet(answers: seq<Answer>, start: nat, size: int)
    requires start <= |answers| && size >= 1
    ensures SlowStart(answers, start, size) <= |answers|
    ensures AnyRefused(answers, start, SlowStart(answers, start, size)) == AnyRefused(answers, start, |answers|)
    decreases |answers| - start
  {
    var portion := Min(size, |answers| - start);
    if portion > 0 && !AnyRefused(answers, start, start + portion) {
      RefusedIsMet(answers, start + portion, 2 * portion);
    }
  }

  lemma FirstRefused(answers: seq<Answer>, lo: nat, hi: nat)
    requires lo <= hi <= |answers|
    ensures !AnyRefused(answers, 0, 0)
    ensures !AnyRefused(answers, 0, lo) ==> AnyRefused(answers, 0, hi) == AnyRefused(answers, lo, hi)
  {
  }

  function CountDone(answers: seq<Answer>): nat {
    if answers == [] then 0 else CountDone(answers[..|answers| - 1]) + if answers[|answers| - 1].Refused? then 0 else 1
  }

  function DeletionOf(key: string, p: Pod): Item {
    Item(key, Delete, p.uid)
  }

  /** A deletion is expected before it is asked for, and is taken for observed when
      it was refused or there is nothing to delete. */
  function AfterCall(c: Cache, key: string, p: Pod, a: Answer): Cache {
    var expected := Expected(c, DeletionOf(key, p));
    if a.Deleted? then expected else Observed(expected, DeletionOf(key, p))
  }

  function AfterCalls(c: Cache, key: string, pods: seq<Pod>, answers: seq<Answer>): Cache
    requires |pods| == |answers|
  {
    if pods == [] then c
    else
      var n := |pods| - 1;
      AfterCall(AfterCalls(c, key, pods[..n], answers[..n]), key, pods[n], answers[n])
  }

  function Uids(pods: seq<Pod>): seq<string> {
    if pods == [] then [] else Uids(pods[..|pods| - 1]) + [pods[|pods| - 1].uid]
  }

  /** Does a failed check let the round go on? */
  predicate Blocked(c: Cache, key: string, now: int, timeout: int) {
    !Checked(c, key, now).1 && Checked(c, key, now).2 < timeout
  }

  function Opened(c: Cache, key: string, now: int): Cache {
    if Checked(c, key, now).1 then Checked(c, key, now).0 else Checked(c, key, now).0 - {key}
  }

  class DaemonSetController {
    const expectations: ResourceExpectations
    /** The pods that a deletion was asked for, in this order. */
    var asked: seq<string>

    constructor ()
      ensures fresh(expectations) && expectations.controllerCache == map[] && asked == []
    {
      expectations := new ResourceExpectations();
      asked := [];
    }

    method DeletePod(key: string, pod: Pod, answer: Answer) returns (failed: bool)
      modifies this, expectations
      ensures asked == old(asked) + [pod.uid]
      ensures expectations.controllerCache == AfterCall(old(expectations.controllerCache), key, pod, answer)
      ensures failed == answer.Refused?
    {
      expectations.Expect(key, Delete, pod.uid);
      asked := asked + [pod.uid];
      if !answer.Deleted? {
        expectations.Observe(key, Delete, pod.uid);
      }
      failed := answer.Refused?;
    }

    /** The first `k` calls were made since `before` was asked for and `c` expected. */
    ghost predicate Called(key: string, pods: seq<Pod>, answers: seq<Answer>, k: nat, before: seq<string>, c: Cache)
      requires |answers| == |pods|
      reads this, expectations
    {
      && k <= |pods|
      && asked == before + Uids(pods[..k])
      && expectations.controllerCache == AfterCalls(c, key, pods[..k], answers[..k])
    }

    lemma CalledNone(key: string, pods: seq<Pod>, answers: seq<Answer>)
      requires |answers| == |pods|
      ensures Called(key, pods, answers, 0, asked, expectations.controllerCache)
      ensures CountDone(answers[..0]) == 0 && !AnyRefused(answers, 0, 0)
    {
    }

    method DeleteNext(key: string, pods: seq<Pod>, answers: seq<Answer>, k: nat, ghost before: seq<string>, ghost c: Cache)
        returns (failed: bool)
      requires |answers| == |pods| && k < |pods| && Called(key, pods, answers, k, before, c)
      modifies this, expectations
      ensures Called(key, pods, answers, k + 1, before, c)
      ensures failed == answers[k].Refused?
    {
      hide AfterCall;
      assert pods[..k + 1][..k] == pods[..k] && answers[..k + 1][..k] == answers[..k];
      failed := DeletePod(key, pods[k], answers[k]);
    }

    /** One portion of calls. They run at the same time in the source, and here one
        after the other. */
    method DeletePortion(key: string, pods: seq<Pod>, answers: seq<Answer>, start: nat, size: nat,
                         ghost before: seq<string>, ghost c: Cache) returns (failures: nat)
      requires |answers| == |pods| && start + size <= |pods| && Called(key, pods, answers, start, before, c)
      modifies this, expectations
      ensures Called(key, pods, answers, start + size, before, c)
      ensures failures <= size && CountDone(answers[..start + size]) == CountDone(answers[..start]) + size - failures
      ensures failures > 0 <==> AnyRefused(answers, start, start + size)
    {
      hide AfterCall, Called;
      failures := 0;
      for i := 0 to size
        invariant Called(key, pods, answers, start + i, before, c)
        invariant failures <= i && CountDone(answers[..start + i]) == CountDone(answers[..start]) + i - failures
        invariant failures > 0 <==> AnyRefused(answers, start, start + i)
      {
        var k := start + i;
        assert answers[..k + 1][..k] == answers[..k];
        var failed := DeleteNext(key, pods, answers, k, before, c);
        if failed {
          failures := failures + 1;
        }
      }
    }

    /** `SlowStartBatch` around `DeletePod`. */
    method SlowStartBatch(key: string, pods: seq<Pod>, answers: seq<Answer>, initial: int) returns (successes: nat, ok: bool)
      requires |answers| == |pods|
      modifies this, expectations
      ensures var m := SlowStart(answers, 0, initial);
        && Called(key, pods, answers, m, old(asked), old(expectations.controllerCache))
        && m <= |answers| && successes == CountDone(answers[..m]) && ok == !AnyRefused(answers, 0, m)
    {
      hide Called, CountDone, AnyRefused;
      CalledNone(key, pods, answers);
      successes, ok := 0, true;
      var index: nat := 0;
      var size := Min(|pods|, initial);
      while size > 0
        invariant index <= |pods| && ok && !AnyRefused(answers, 0, index)
        invariant Called(key, pods, answers, index, old(asked), old(expectations.controllerCache))
        invariant successes == CountDone(answers[..index])
        invariant size <= |pods| - index
        invariant SlowStart(answers, 0, initial) == SlowStart(answers, index, size)
        decreases |pods| - index
      {
        var failures := DeletePortion(key, pods, answers, index, size, old(asked), old(expectations.controllerCache));
        FirstRefused(answers, index, index + size);
        index := index + size;
        successes := successes + (size - failures);
        if failures > 0 {
          ok := false;
          return;
        }
        size := Min(2 * size, |pods| - index);
      }
    }

    /** A round: no deletions while some of the last ones were not seen, unless they
        have been missing for too long. It fails only on a refused deletion. */
    method Reconcile(key: string, now: int, timeout: int, pods: seq<Pod>, desired: int, max: int, answers: seq<Answer>)
        returns (ok: bool)
      requires |answers| == |Chosen(pods, desired, max)|
      modifies this, expectations
      ensures var c := old(expectations.controllerCache);
        if Blocked(c, key, now, timeout) then
          asked == old(asked) && expectations.controllerCache == Checked(c, key, now).0
        else
          var chosen, m := Chosen(pods, desired, max), SlowStart(answers, 0, 1);
          && Called(key, chosen, answers, m, old(asked), Opened(c, key, now))
      ensures ok <==> Blocked(old(expectations.controllerCache), key, now, timeout) || !AnyRefused(answers, 0, |answers|)
    {
      var satisfied, unsatisfiedFor := expectations.SatisfiedExpectations(key, now);
      if !satisfied {
        if unsatisfiedFor >= timeout {
          expectations.DeleteExpectations(key);
        } else {
          return true;
        }
      }
      var toDelete := AnalyzePods(pods, desired, max);
      var successes;
      successes, ok := SlowStartBatch(key, toDelete, answers, 1);
      RefusedIsMet(answers, 0, 1);
    }
  }
}
