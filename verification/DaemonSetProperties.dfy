/** What a round of DaemonSet deletions may cost, and why rounds do not overlap. */
module DaemonSetProperties {
  import opened Arithmetic
  import opened Expectations
  import opened DaemonSet
  import Sorting

  /* ---- the quota ---- */

  predicate IsServing(p: Pod) {
    !p.terminating && p.ready
  }

  function Serving(pods: seq<Pod>): nat {
    if pods == [] then 0 else (if IsServing(pods[0]) then 1 else 0) + Serving(pods[1..])
  }

  function Terminating(pods: seq<Pod>): nat {
    if pods == [] then 0 else (if pods[0].terminating then 1 else 0) + Terminating(pods[1..])
  }

  /** The quota comes from the first `m` pods: all of them that are not terminating.
      It stops there because enough were found, there are no more, or the next one
      is serving and the unavailable ones have reached the maximum. */
  lemma {:induction false} QuotaMeans(pods: seq<Pod>, need: int, unavailable: int, max: int) returns (m: nat)
    ensures m <= |pods|
    ensures Quota(pods, need, unavailable, max) == m - Terminating(pods[..m]) <= Max(0, need)
    ensures Serving(pods[..m]) <= Max(0, max - unavailable)
    ensures || Quota(pods, need, unavailable, max) >= need
            || m == |pods|
            || (IsServing(pods[m]) && unavailable + Terminating(pods[..m]) + Serving(pods[..m]) >= max)
  {
    if pods == [] || need <= 0 {
      m := 0;
    } else if !pods[0].terminating && pods[0].ready && unavailable >= max {
      m := 0;
    } else {
      var taken := if pods[0].terminating then 0 else 1;
      var more := if pods[0].terminating || pods[0].ready then 1 else 0;
      var k := QuotaMeans(pods[1..], need - taken, unavailable + more, max);
      m := k + 1;
      assert pods[..m][1..] == pods[1..][..k];
    }
  }

  lemma {:induction false} ServingPrefix(pods: seq<Pod>, a: nat, b: nat)
    requires a <= b <= |pods|
    ensures Serving(pods[..a]) <= Serving(pods[..b])
  {
    if a > 0 {
      ServingPrefix(pods[1..], a - 1, b - 1);
      assert pods[..a][1..] == pods[1..][..a - 1];
      assert pods[..b][1..] == pods[1..][..b - 1];
    }
  }

  lemma {:induction false} OutdatedMembers(pods: seq<Pod>)
    ensures multiset(Outdated(pods)) <= multiset(pods)
    ensures forall p :: p in Outdated(pods) <==> p in pods && !p.updated
  {
    if pods != [] {
      OutdatedMembers(pods[..|pods| - 1]);
      assert pods == pods[..|pods| - 1] + [pods[|pods| - 1]];
    }
  }

  lemma {:induction false} FrontOf(s: seq<Pod>, n: nat)
    requires n <= |s|
    ensures multiset(s[..n]) <= multiset(s) && forall p :: p in s[..n] ==> p in s
  {
    assert s == s[..n] + s[n..];
  }

  /** What is chosen is the front of the sorted list, as long as the quota. */
  lemma {:induction false} ChosenIsFront(pods: seq<Pod>, desired: int, max: int)
    ensures var sorted, chosen := Sorting.Sort(DeletedBefore, Outdated(pods)), Chosen(pods, desired, max);
      && |chosen| <= |sorted| && chosen == sorted[..|chosen|]
      && |chosen| == if desired <= CountUpdated(pods) then 0 else Quota(sorted, desired - CountUpdated(pods), CountUpdatedNotReady(pods), max)
  {
    hide Sorting.Sort, Outdated;
    var sorted := Sorting.Sort(DeletedBefore, Outdated(pods));
    if desired > CountUpdated(pods) {
      var _ := QuotaMeans(sorted, desired - CountUpdated(pods), CountUpdatedNotReady(pods), max);
    }
  }

  lemma {:induction false} ChosenMembers(pods: seq<Pod>, desired: int, max: int)
    ensures multiset(Chosen(pods, desired, max)) <= multiset(pods)
    ensures forall p :: p in Chosen(pods, desired, max) ==> p in pods && !p.updated
  {
    hide Sorting.Sort, Outdated, Chosen;
    var sorted := Sorting.Sort(DeletedBefore, Outdated(pods));
    OutdatedMembers(pods);
    Sorting.SortPermutes(DeletedBefore, Outdated(pods));
    Sorting.SortKeepsMembers(DeletedBefore, Outdated(pods));
    ChosenIsFront(pods, desired, max);
    FrontOf(sorted, |Chosen(pods, desired, max)|);
  }

  predicate IsUpdated(p: Pod) {
    p.updated
  }

  predicate IsUpdatedNotReady(p: Pod) {
    p.updated && !p.ready
  }

  /** What the two counts are: how many pods are updated, and how many of them not ready. */
  lemma {:induction false} CountsMean(pods: seq<Pod>)
    ensures CountUpdated(pods) == HowMany(pods, IsUpdated)
    ensures CountUpdatedNotReady(pods) == HowMany(pods, IsUpdatedNotReady)
  {
    hide HowMany;
    if pods == [] {
      NoneOfNothing(IsUpdated);
      NoneOfNothing(IsUpdatedNotReady);
    } else {
      CountsMean(pods[..|pods| - 1]);
      OneMore(pods, IsUpdated);
      OneMore(pods, IsUpdatedNotReady);
    }
  }

  /** No round deletes more pods than are missing, an updated pod, or one twice; and
      the serving pods among them, with the updated ones that are not ready, stay
      within the maximum unless these alone exceed it. */
  lemma {:induction false} ChosenWithinBounds(pods: seq<Pod>, desired: int, max: int)
    ensures var chosen := Chosen(pods, desired, max);
      && |chosen| <= Max(0, desired - HowMany(pods, IsUpdated))
      && multiset(chosen) <= multiset(pods) && (forall p :: p in chosen ==> !p.updated)
      && Serving(chosen) <= Max(0, max - HowMany(pods, IsUpdatedNotReady))
  {
    CountsMean(pods);
    hide Quota, Sorting.Sort, Outdated, Chosen;
    ChosenMembers(pods, desired, max);
    ChosenIsFront(pods, desired, max);
    var need := desired - CountUpdated(pods);
    if need > 0 {
      var sorted := Sorting.Sort(DeletedBefore, Outdated(pods));
      var m := QuotaMeans(sorted, need, CountUpdatedNotReady(pods), max);
      ServingPrefix(sorted, |Chosen(pods, desired, max)|, m);
    }
  }

  /* ---- the order ---- */

  lemma {:induction false} DeletionOrders()
    ensures Sorting.Orders(DeletedBefore)
  {
    forall x, y | DeletedBefore(x, y)
      ensures !DeletedBefore(y, x)
    {
    }
    forall x, y, z | !DeletedBefore(y, x) && !DeletedBefore(z, y)
      ensures !DeletedBefore(z, x)
    {
    }
  }

  /** A pod is chosen only together with every outdated pod that comes before it in
      the order: pending, not ready, of lower deletion cost, newer. */
  lemma {:induction false} ChosenInOrder(pods: seq<Pod>, desired: int, max: int, p: Pod, q: Pod)
    requires p in Chosen(pods, desired, max) && q in pods && !q.updated && DeletedBefore(q, p)
    ensures q in Chosen(pods, desired, max)
  {
    hide Quota, Sorting.Sort, Outdated, Chosen;
    OutdatedMembers(pods);
    ChosenIsFront(pods, desired, max);
    var outdated := Outdated(pods);
    var sorted, chosen := Sorting.Sort(DeletedBefore, outdated), Chosen(pods, desired, max);
    Sorting.SortKeepsMembers(DeletedBefore, outdated);
    DeletionOrders();
    Sorting.SortSorted(DeletedBefore, outdated);
    var i :| 0 <= i < |chosen| && chosen[i] == p;
    var j :| 0 <= j < |sorted| && sorted[j] == q;
    SortedBefore(sorted, i, j);
    assert chosen[j] == q;
  }

  /** No serving pod goes while an outdated one that is not ready stays. */
  lemma {:induction false} UnreadyGoFirst(pods: seq<Pod>, desired: int, max: int, p: Pod, q: Pod)
    requires p in Chosen(pods, desired, max) && p.ready && !p.pending
    requires q in pods && !q.updated && !q.ready
    ensures q in Chosen(pods, desired, max)
  {
    hide Chosen;
    ChosenInOrder(pods, desired, max, p, q);
  }

  /** Nor any pod while an outdated one stays that is pending and it is not; or else, if
      both are ready or neither is, one that costs less to delete, or as much and is newer. */
  lemma {:induction false} PendingCheapNewGoFirst(pods: seq<Pod>, desired: int, max: int, p: Pod, q: Pod)
    requires p in Chosen(pods, desired, max) && q in pods && !q.updated
    requires || (q.pending && !p.pending)
             || (q.pending == p.pending && q.ready == p.ready && (q.cost < p.cost || (q.cost == p.cost && q.created > p.created)))
    ensures q in Chosen(pods, desired, max)
  {
    hide Chosen;
    ChosenInOrder(pods, desired, max, p, q);
  }

  lemma {:induction false} SortedBefore(sorted: seq<Pod>, i: nat, j: nat)
    requires Sorting.Sorted(DeletedBefore, sorted) && i < |sorted| && j < |sorted|
    requires DeletedBefore(sorted[j], sorted[i])
    ensures j < i
  {
  }

  /* ---- pods that are terminating already ---- */

  /** The first terminating pod of a list stands at `t` and the first other one after
      it at `j`. All pods before `t` are within the quota: fewer than `need`, and the
      serving ones no more than `unavailable` leaves of the maximum. The pod at `j`
      is, too, with every terminating pod passed counting as one unavailable. */
  ghost predicate RoomBehind(pods: seq<Pod>, need: int, unavailable: int, max: int, t: nat, j: nat) {
    && t < j < |pods| && t < need
    && (forall k :: 0 <= k < t ==> !pods[k].terminating)
    && (forall k :: t <= k < j ==> pods[k].terminating) && !pods[j].terminating
    && (Serving(pods[..t]) > 0 ==> unavailable + Serving(pods[..t]) <= max)
    && (pods[j].ready ==> unavailable + Serving(pods[..t]) + j - t < max)
  }

  ghost predicate HasRoomBehind(pods: seq<Pod>, need: int, unavailable: int, max: int, t: nat) {
    exists j: nat :: RoomBehind(pods, need, unavailable, max, t, j)
  }

  lemma {:induction false} ServingStep(pods: seq<Pod>, t: nat)
    requires 0 < t <= |pods|
    ensures Serving(pods[..t]) == (if IsServing(pods[0]) then 1 else 0) + Serving(pods[1..][..t - 1])
  {
    assert pods[..t][1..] == pods[1..][..t - 1];
  }

  /** The quota of a list that begins with terminating pods. */
  lemma {:induction false} QuotaBehind(pods: seq<Pod>, need: int, unavailable: int, max: int, j: nat)
    requires j <= |pods| && need > 0 && forall k :: 0 <= k < j ==> pods[k].terminating
    ensures Quota(pods, need, unavailable, max) == Quota(pods[j..], need, unavailable + j, max)
  {
    if j > 0 {
      QuotaBehind(pods[1..], need, unavailable + 1, max, j - 1);
      assert pods[1..][j - 1..] == pods[j..];
    } else {
      assert pods[0..] == pods;
    }
  }

  lemma {:induction false} NoneLeft(pods: seq<Pod>, need: int, unavailable: int, max: int)
    requires forall k :: 0 <= k < |pods| ==> pods[k].terminating
    ensures Quota(pods, need, unavailable, max) == 0
  {
    if pods != [] {
      NoneLeft(pods[1..], need, unavailable + 1, max);
    }
  }

  /** The first pod from `from` on that is not terminating, or the length. */
  lemma {:induction false} NextOther(pods: seq<Pod>, from: nat) returns (j: nat)
    requires from <= |pods|
    ensures from <= j <= |pods| && (j < |pods| ==> !pods[j].terminating)
    ensures forall k :: from <= k < j ==> pods[k].terminating
    decreases |pods| - from
  {
    if from == |pods| || !pods[from].terminating {
      j := from;
    } else {
      j := NextOther(pods, from + 1);
    }
  }

  /** With a terminating pod at the head, something is taken only behind it. */
  lemma {:induction false} TakesBehindHead(pods: seq<Pod>, need: int, unavailable: int, max: int)
    requires pods != [] && pods[0].terminating
    ensures Quota(pods, need, unavailable, max) > 0 <==> HasRoomBehind(pods, need, unavailable, max, 0)
  {
    assert Serving(pods[..0]) == 0;
    var j := NextOther(pods, 0);
    if j == |pods| {
      NoneLeft(pods, need, unavailable, max);
      assert forall i: nat :: !RoomBehind(pods, need, unavailable, max, 0, i);
    } else {
      assert forall i: nat :: RoomBehind(pods, need, unavailable, max, 0, i) ==> i == j;
      if need > 0 {
        QuotaBehind(pods, need, unavailable, max, j);
        if !pods[j].ready || unavailable + j < max {
          assert RoomBehind(pods, need, unavailable, max, 0, j);
        }
      }
    }
  }

  lemma {:induction false} RoomBehindStep(pods: seq<Pod>, need: int, unavailable: int, max: int, t: nat, j: nat)
    requires 0 < t < j < |pods| && !pods[0].terminating
    requires pods[0].ready ==> unavailable < max
    ensures RoomBehind(pods, need, unavailable, max, t, j)
            <==> RoomBehind(pods[1..], need - 1, unavailable + (if pods[0].ready then 1 else 0), max, t - 1, j - 1)
  {
    ServingStep(pods, t);
    assert forall k :: 0 <= k < |pods| - 1 ==> pods[1..][k] == pods[k + 1];
    assert (forall k :: 0 <= k < t ==> !pods[k].terminating) <==> forall k :: 0 <= k < t - 1 ==> !pods[1..][k].terminating by {
      assert forall k :: 0 < k < t ==> pods[k] == pods[1..][k - 1];
    }
    assert (forall k :: t <= k < j ==> pods[k].terminating) <==> forall k :: t - 1 <= k < j - 1 ==> pods[1..][k].terminating by {
      assert forall k :: t <= k < j ==> pods[k] == pods[1..][k - 1];
    }
  }

  /** The quota reaches beyond the first terminating pod exactly when there is room
      behind it. */
  lemma {:induction false} QuotaReachesBeyond(pods: seq<Pod>, need: int, unavailable: int, max: int, t: nat)
    requires t < |pods| && pods[t].terminating && forall k :: 0 <= k < t ==> !pods[k].terminating
    ensures t < Quota(pods, need, unavailable, max) <==> HasRoomBehind(pods, need, unavailable, max, t)
  {
    hide HasRoomBehind;
    if t == 0 {
      TakesBehindHead(pods, need, unavailable, max);
    } else if need <= 0 || (pods[0].ready && unavailable >= max) {
      StuckBefore(pods, need, unavailable, max, t);
    } else {
      var more := if pods[0].ready then 1 else 0;
      QuotaReachesBeyond(pods[1..], need - 1, unavailable + more, max, t - 1);
      RoomMoves(pods, need, unavailable, max, t);
    }
  }

  lemma {:induction false} StuckBefore(pods: seq<Pod>, need: int, unavailable: int, max: int, t: nat)
    requires 0 < t < |pods| && !pods[0].terminating
    requires need <= 0 || (pods[0].ready && unavailable >= max)
    ensures !HasRoomBehind(pods, need, unavailable, max, t)
    ensures Quota(pods, need, unavailable, max) == 0
  {
    ServingStep(pods, t);
  }

  lemma {:induction false} RoomMoves(pods: seq<Pod>, need: int, unavailable: int, max: int, t: nat)
    requires 0 < t < |pods| && !pods[0].terminating && (pods[0].ready ==> unavailable < max)
    ensures var more := if pods[0].ready then 1 else 0;
      HasRoomBehind(pods, need, unavailable, max, t)
      <==> HasRoomBehind(pods[1..], need - 1, unavailable + more, max, t - 1)
  {
    var more := if pods[0].ready then 1 else 0;
    var rest, less, used, s: nat := pods[1..], need - 1, unavailable + more, t - 1;
    if HasRoomBehind(pods, need, unavailable, max, t) {
      var j: nat :| RoomBehind(pods, need, unavailable, max, t, j);
      RoomBehindStep(pods, need, unavailable, max, t, j);
      assert RoomBehind(rest, less, used, max, s, j - 1);
    }
    if HasRoomBehind(rest, less, used, max, s) {
      var i: nat :| RoomBehind(rest, less, used, max, s, i);
      RoomBehindStep(pods, need, unavailable, max, t, i + 1);
    }
  }

  ghost predicate HasRoom(pods: seq<Pod>, need: int, unavailable: int, max: int) {
    exists t: nat :: HasRoomBehind(pods, need, unavailable, max, t)
  }

  /** A terminating pod counts as unavailable and takes nothing of the quota, but the
      chosen prefix is cut by number. A terminating pod is chosen, and so deleted
      again in place of another one, exactly when there is room behind the first of
      them in the deletion order. */
  lemma {:induction false} TerminatingChosenExactlyWhen(pods: seq<Pod>, desired: int, max: int)
    ensures var sorted := Sorting.Sort(DeletedBefore, Outdated(pods));
      (exists p :: p in Chosen(pods, desired, max) && p.terminating)
      <==> HasRoom(sorted, desired - HowMany(pods, IsUpdated), HowMany(pods, IsUpdatedNotReady), max)
  {
    CountsMean(pods);
    hide Quota, Sorting.Sort, Outdated, Chosen;
    var sorted, chosen := Sorting.Sort(DeletedBefore, Outdated(pods)), Chosen(pods, desired, max);
    var need, unavailable := desired - CountUpdated(pods), CountUpdatedNotReady(pods);
    ChosenIsFront(pods, desired, max);
    if p :| p in chosen && p.terminating {
      var i :| 0 <= i < |chosen| && chosen[i] == p;
      var t := FirstTerminating(sorted, i);
      QuotaReachesBeyond(sorted, need, unavailable, max, t);
    }
    if HasRoom(sorted, need, unavailable, max) {
      var t: nat :| HasRoomBehind(sorted, need, unavailable, max, t);
      QuotaReachesBeyond(sorted, need, unavailable, max, t);
      assert chosen[t] == sorted[t];
      assert sorted[t].terminating;
    }
  }

  lemma {:induction false} FirstTerminating(pods: seq<Pod>, i: nat) returns (t: nat)
    requires i < |pods| && pods[i].terminating
    ensures t <= i && pods[t].terminating && forall k :: 0 <= k < t ==> !pods[k].terminating
  {
    if k :| 0 <= k < i && pods[k].terminating {
      t := FirstTerminating(pods, k);
    } else {
      t := i;
    }
  }

  /** Two outdated pods that are not ready, the newer one terminating, and one pod to
      be updated: the terminating pod is deleted again, and the other stays. */
  lemma TerminatingPodDeletedAgain()
    ensures Chosen([GONE, STUCK], 1, 1) == [GONE]
  {
    TwoOutdated(GONE, STUCK);
    QuotaOfTwo();
    Sorting.SortKeepsSorted(DeletedBefore, [GONE, STUCK]);
    hide Outdated, CountUpdated, CountUpdatedNotReady, Quota, Sorting.Sort;
    assert [GONE, STUCK][..1] == [GONE];
  }

  const GONE := Pod("a", true, false, false, false, 0, 2)
  const STUCK := Pod("b", false, false, false, false, 0, 1)

  lemma TwoOutdated(a: Pod, b: Pod)
    requires !a.updated && !b.updated
    ensures Outdated([a, b]) == [a, b] && CountUpdated([a, b]) == 0 && CountUpdatedNotReady([a, b]) == 0
  {
    assert [a, b][..1] == [a] && [a][..0] == [];
    assert Outdated([a]) == [a] && CountUpdated([a]) == 0 && CountUpdatedNotReady([a]) == 0;
  }

  lemma QuotaOfTwo()
    ensures Quota([GONE, STUCK], 1, 0, 1) == 1
  {
    assert [GONE, STUCK][1..] == [STUCK] && [STUCK][1..] == [];
    assert Quota([STUCK], 1, 1, 1) == 1;
  }

  /* ---- slow start ---- */

  lemma {:induction false} CountDoneUpTo(answers: seq<Answer>, lo: nat, hi: nat)
    requires lo <= hi <= |answers|
    ensures CountDone(answers[..lo]) <= CountDone(answers[..hi]) <= CountDone(answers[..lo]) + hi - lo
    ensures CountDone(answers[..hi]) == CountDone(answers[..lo]) + hi - lo <==> !AnyRefused(answers, lo, hi)
  {
    if lo < hi {
      CountDoneUpTo(answers, lo, hi - 1);
      assert answers[..hi][..hi - 1] == answers[..hi - 1];
    }
  }

  lemma {:induction false} SlowStartFrom(answers: seq<Answer>, start: nat, size: int, initial: int)
    requires start <= |answers| && CountDone(answers[..start]) == start
    requires 1 <= initial && 1 <= size <= start + initial
    ensures var m := SlowStart(answers, start, size);
      && start <= m <= |answers| && m <= 2 * CountDone(answers[..m]) + initial
      && (m == |answers| || AnyRefused(answers, start, m))
      && (!AnyRefused(answers, start, |answers|) ==> m == |answers|)
    decreases |answers| - start
  {
    var portion := Min(size, |answers| - start);
    if portion > 0 {
      CountDoneUpTo(answers, start, start + portion);
      if !AnyRefused(answers, start, start + portion) {
        SlowStartFrom(answers, start + portion, 2 * portion, initial);
      }
    }
  }

  /** The calls stop short only after a refusal; without one all are made; and with
      one there were at most the initial portion and twice the successes. */
  lemma {:induction false} SlowStartMeans(answers: seq<Answer>, initial: int)
    requires initial >= 1
    ensures var m := SlowStart(answers, 0, initial);
      && m <= |answers|
      && (m == |answers| || AnyRefused(answers, 0, m))
      && (!AnyRefused(answers, 0, |answers|) ==> m == |answers|)
      && m <= 2 * CountDone(answers[..m]) + initial
  {
    SlowStartFrom(answers, 0, initial, initial);
  }

  /* ---- rounds do not overlap ---- */

  predicate DistinctUids(pods: seq<Pod>) {
    forall i, j :: 0 <= i < j < |pods| ==> pods[i].uid != pods[j].uid
  }

  /** The deletions that were accepted, and so will be seen some time. */
  ghost predicate Accepted(pods: seq<Pod>, answers: seq<Answer>, m: nat, uid: string)
    requires m <= |pods| == |answers|
  {
    exists k :: 0 <= k < m && answers[k].Deleted? && pods[k].uid == uid
  }

  lemma {:induction false} CallMeans(c: Cache, key: string, p: Pod, a: Answer, i: Item)
    requires NoEmptyRecord(c)
    ensures NoEmptyRecord(AfterCall(c, key, p, a))
    ensures IsPending(AfterCall(c, key, p, a), i) <==>
      if i == DeletionOf(key, p) then a.Deleted? else IsPending(c, i)
  {
    hide IsPending, Expected, Observed, NoEmptyRecord;
    NextMeans(c, Expect(DeletionOf(key, p)), i);
    NextMeans(Expected(c, DeletionOf(key, p)), Observe(DeletionOf(key, p)), i);
  }

  /** The pods asked for are the called ones, in their order. */
  lemma {:induction false} UidsInOrder(pods: seq<Pod>)
    ensures |Uids(pods)| == |pods| && forall k :: 0 <= k < |pods| ==> Uids(pods)[k] == pods[k].uid
  {
    if pods != [] {
      UidsInOrder(pods[..|pods| - 1]);
    }
  }

  /** After a round the key waits for exactly the pods whose deletion was accepted. */
  lemma {:induction false} CallsMean(c: Cache, key: string, pods: seq<Pod>, answers: seq<Answer>, m: nat, i: Item)
    requires m <= |pods| == |answers| && DistinctUids(pods) && NoEmptyRecord(c) && key !in c
    ensures NoEmptyRecord(AfterCalls(c, key, pods[..m], answers[..m]))
    ensures IsPending(AfterCalls(c, key, pods[..m], answers[..m]), i) <==>
      IsPending(c, i) || (i.key == key && i.action.Delete? && Accepted(pods, answers, m, i.name))
  {
    hide AfterCall, NoEmptyRecord;
    if m > 0 {
      assert pods[..m][..m - 1] == pods[..m - 1] && answers[..m][..m - 1] == answers[..m - 1];
      CallsMean(c, key, pods, answers, m - 1, i);
      CallMeans(AfterCalls(c, key, pods[..m - 1], answers[..m - 1]), key, pods[m - 1], answers[m - 1], i);
      if Accepted(pods, answers, m - 1, i.name) {
        var k :| 0 <= k < m - 1 && answers[k].Deleted? && pods[k].uid == i.name;
        assert pods[k].uid != pods[m - 1].uid;
      }
    }
  }

  /** The controller for one DaemonSet over time, with the accepted deletions not yet
      seen; a round that gives up waiting forgets them. */
  datatype State = State(cache: Cache, ghost unseen: iset<string>)

  datatype Event =
    | Round(now: int, pods: seq<Pod>, desired: int, max: int, answers: seq<Answer>)
    | Seen(uid: string)

  predicate WellFormed(e: Event) {
    e.Round? ==> DistinctUids(Chosen(e.pods, e.desired, e.max)) && |e.answers| == |Chosen(e.pods, e.desired, e.max)|
  }

  /** As `Reconcile` and the pod watch change the cache. */
  ghost function Next(s: State, key: string, timeout: int, e: Event): State
    requires WellFormed(e)
  {
    match e
    case Seen(uid) => State(Observed(s.cache, Item(key, Delete, uid)), s.unseen - iset{uid})
    case Round(now, pods, desired, max, answers) =>
      if Blocked(s.cache, key, now, timeout) then s.(cache := Checked(s.cache, key, now).0)
      else
        var chosen, m := Chosen(pods, desired, max), SlowStart(answers, 0, 1);
        SlowStartMeans(answers, 1);
        State(AfterCalls(Opened(s.cache, key, now), key, chosen[..m], answers[..m]),
              iset uid | Accepted(chosen, answers, m, uid))
  }

  ghost predicate Agrees(s: State, key: string) {
    && NoEmptyRecord(s.cache)
    && forall i: Item :: i.key == key ==> (IsPending(s.cache, i) <==> i.action.Delete? && i.name in s.unseen)
  }

  lemma {:induction false} OpenedHasNoKey(c: Cache, key: string, now: int)
    requires NoEmptyRecord(c)
    ensures NoEmptyRecord(Opened(c, key, now)) && key !in Opened(c, key, now)
    ensures forall i: Item :: i.key != key ==> (IsPending(Opened(c, key, now), i) <==> IsPending(c, i))
  {
  }

  lemma {:induction false} NextAgrees(s: State, key: string, timeout: int, e: Event)
    requires Agrees(s, key) && WellFormed(e)
    ensures Agrees(Next(s, key, timeout, e), key)
  {
    hide Observed, Checked, AfterCalls, Opened, Chosen, SlowStart;
    match e {
      case Seen(uid) =>
        NextMeans(s.cache, Observe(Item(key, Delete, uid)), Item(key, Delete, uid));
        forall i: Item | i.key == key
          ensures IsPending(Next(s, key, timeout, e).cache, i) <==> i.action.Delete? && i.name in Next(s, key, timeout, e).unseen
        {
          NextMeans(s.cache, Observe(Item(key, Delete, uid)), i);
        }
      case Round(now, pods, desired, max, answers) =>
        if Blocked(s.cache, key, now, timeout) {
          NextMeans(s.cache, Check(key, now), Item(key, Delete, ""));
          forall i: Item | i.key == key
            ensures IsPending(Next(s, key, timeout, e).cache, i) <==> i.action.Delete? && i.name in s.unseen
          {
            NextMeans(s.cache, Check(key, now), i);
          }
        } else {
          var chosen, m := Chosen(pods, desired, max), SlowStart(answers, 0, 1);
          SlowStartMeans(answers, 1);
          OpenedHasNoKey(s.cache, key, now);
          CallsMean(Opened(s.cache, key, now), key, chosen, answers, m, Item(key, Delete, ""));
          forall i: Item | i.key == key
            ensures IsPending(Next(s, key, timeout, e).cache, i) <==> i.action.Delete? && Accepted(chosen, answers, m, i.name)
          {
            CallsMean(Opened(s.cache, key, now), key, chosen, answers, m, i);
          }
        }
    }
  }

  ghost function Run(key: string, timeout: int, events: seq<Event>): State
    requires forall k :: 0 <= k < |events| ==> WellFormed(events[k])
  {
    if events == [] then State(map[], iset{}) else Next(Run(key, timeout, events[..|events| - 1]), key, timeout, events[|events| - 1])
  }

  /** After any run, a round may delete pods if and only if every deletion accepted
      in earlier rounds was seen since, or the wait has lasted for the timeout. */
  lemma {:induction false} RoundsWait(key: string, timeout: int, events: seq<Event>, now: int)
    requires forall k :: 0 <= k < |events| ==> WellFormed(events[k])
    ensures var s := Run(key, timeout, events);
      && Agrees(s, key)
      && (!Blocked(s.cache, key, now, timeout) <==> s.unseen == iset{} || Checked(s.cache, key, now).2 >= timeout)
    decreases |events|
  {
    if events != [] {
      RoundsWait(key, timeout, events[..|events| - 1], now);
      NextAgrees(Run(key, timeout, events[..|events| - 1]), key, timeout, events[|events| - 1]);
    }
    var s := Run(key, timeout, events);
    if key in s.cache {
      assert SomeName(s.cache[key]);
      var a :| a in s.cache[key].names && s.cache[key].names[a] != {};
      var name :| name in s.cache[key].names[a];
      assert IsPending(s.cache, Item(key, a, name));
    } else {
      assert forall uid :: uid in s.unseen ==> IsPending(s.cache, Item(key, Delete, uid));
      assert s.unseen == iset{};
    }
  }
}
