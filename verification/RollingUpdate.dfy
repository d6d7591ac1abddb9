/** The partition-limited rolling update of the Advanced Deployment controller
    (rolling.go, deployment_util.go, and the creation path of sync.go).

    The functions say what one reconcile round makes of the ReplicaSets; the
    class in `RollingController` does it step by step, as the controller does, and
    is proved equal to them. Two things the controller does not choose are inputs:
    `broken`, the sets whose API patch fails in this round, and `shared`,
    whether `append(oldRSs, newRS)` found spare capacity and so writes into the
    array that `oldRSs` is a slice of. */
module RollingUpdate {
  import opened Arithmetic
  import opened Sorting
  import opened ReplicaSets

  datatype Fenceposts = Fenceposts(maxSurge: Option<IntOrString>, maxUnavailable: Option<IntOrString>)

  datatype Deployment = Deployment(
    replicas: nat,
    statusReplicas: int,
    partition: IntOrString,
    rollingUpdate: Option<Fenceposts>)

  /** The new ReplicaSet and the old ones; the order of `olds` has no meaning. */
  datatype Fleet = Fleet(newRS: ReplicaSet, olds: seq<ReplicaSet>)

  function ValueOrZero(v: Option<IntOrString>): IntOrString {
    if v.Some? then v.value else Int(0)
  }

  /** Surge rounds up, unavailability rounds down, and both zero means one
      unavailable; a malformed value makes both read as zero. */
  function ResolveFenceposts(f: Fenceposts, desired: int): (int, int) {
    var surge := ValueOrZero(f.maxSurge);
    var unavailable := ValueOrZero(f.maxUnavailable);
    if surge.Malformed? || unavailable.Malformed? then (0, 0)
    else
      var s := Scaled(surge, desired, true);
      var u := Scaled(unavailable, desired, false);
      (s, if s == 0 && u == 0 then 1 else u)
  }

  function MaxUnavailable(d: Deployment): int {
    if d.rollingUpdate.None? || d.replicas == 0 then 0
    else Min(ResolveFenceposts(d.rollingUpdate.value, d.replicas).1, d.replicas)
  }

  function MaxSurge(d: Deployment): int {
    if d.rollingUpdate.None? then 0
    else ResolveFenceposts(d.rollingUpdate.value, d.replicas).0
  }

  /** `NewRSReplicasLimit`: how many pods the partition grants the new set. A
      percentage other than 100% always leaves one pod to the old sets. */
  function PartitionLimit(d: Deployment): nat {
    var limit := Max(Min(Scaled(d.partition, d.replicas, true), d.replicas), 0);
    if d.replicas > 1 && d.partition.IsString() && d.partition != Percent(100)
    then Min(limit, d.replicas - 1)
    else limit
  }

  /** `NewRSReplicasLowerBound`, used only when the new set is created. */
  function CreationLowerBound(q: Quota): nat {
    if q.surge > 0 then 0 else Min(1, q.replicas)
  }

  /** The four numbers a round works with. The partition limit never exceeds the
      size of the deployment. */
  datatype QuotaRecord = Quota(replicas: nat, limit: nat, surge: int, unavailable: int)

  type Quota = q: QuotaRecord | q.limit <= q.replicas witness Quota(0, 0, 0, 0)

  function QuotaOf(d: Deployment): Quota {
    Quota(d.replicas, PartitionLimit(d), MaxSurge(d), MaxUnavailable(d))
  }

  /** `NewRSNewReplicas`. */
  function NewReplicas(f: Fleet, q: Quota): nat {
    var n := f.newRS.spec;
    var current := Size(f.olds) + n;
    if current > n then
      var maxTotal := q.replicas + q.surge;
      if n >= q.limit || current >= maxTotal then n
      else Min(n + Min(maxTotal - current, q.replicas - n), q.limit)
    else q.replicas
  }

  /** The set after a successful patch to `size`, with its annotations renewed. */
  function Resized(r: ReplicaSet, size: nat, q: Quota): ReplicaSet {
    r.(spec := size,
       desiredReplicas := Some(q.replicas),
       maxReplicas := Some(q.replicas + q.surge))
  }

  /** `getNewReplicaSet` when no set matches the template yet. */
  function Created(f: Fleet, q: Quota): Fleet
    requires f.newRS.spec == 0
  {
    f.(newRS := Resized(f.newRS, Max(NewReplicas(f, q), CreationLowerBound(q)), q))
  }

  /** Outcome of `reconcileNewReplicaSet`. */
  datatype NewOutcome = NewOutcome(newRS: ReplicaSet, scaled: bool, failed: bool)

  function ReconcileNew(f: Fleet, q: Quota, broken: set<string>): NewOutcome {
    var n := f.newRS.spec;
    var target := if n >= q.replicas then q.replicas else NewReplicas(f, q);
    if n == target then NewOutcome(f.newRS, false, false)
    else if f.newRS.name in broken then NewOutcome(f.newRS, false, true)
    else NewOutcome(Resized(f.newRS, target, q), true, false)
  }

  /** `ScaleDownLimitForOld`: how far the old sets exceed their share. */
  function ScaleDownLimit(olds: seq<ReplicaSet>, n: nat, q: Quota): int {
    Size(olds) - (q.replicas - Max(q.limit, n))
  }

  datatype Drained = Drained(sets: seq<ReplicaSet>, removed: int, failed: bool)

  /** `cleanupUnhealthyReplicas` on an already sorted list: take unavailable pods
      until `budget` is spent. A status ahead of the size is an error. */
  function Cleanup(rs: seq<ReplicaSet>, budget: int, q: Quota, broken: set<string>): Drained {
    if rs == [] || budget <= 0 then Drained(rs, 0, false)
    else
      var r := rs[0];
      if r.spec == 0 || r.spec == r.available then
        var rest := Cleanup(rs[1..], budget, q, broken);
        rest.(sets := [r] + rest.sets)
      else if r.spec < r.available || r.name in broken then Drained(rs, 0, true)
      else
        var k := Min(budget, r.spec - r.available);
        var rest := Cleanup(rs[1..], budget - k, q, broken);
        Drained([Resized(r, r.spec - k, q)] + rest.sets, k + rest.removed, rest.failed)
  }

  /** The loop of `scaleDownOldReplicaSetsForRollingUpdate` on a sorted list. */
  function ScaleDown(rs: seq<ReplicaSet>, budget: int, q: Quota, broken: set<string>): Drained {
    if rs == [] || budget <= 0 then Drained(rs, 0, false)
    else
      var r := rs[0];
      if r.spec == 0 then
        var rest := ScaleDown(rs[1..], budget, q, broken);
        rest.(sets := [r] + rest.sets)
      else if r.name in broken then Drained(rs, 0, true)
      else
        var k := Min(r.spec, budget);
        var rest := ScaleDown(rs[1..], budget - k, q, broken);
        Drained([Resized(r, r.spec - k, q)] + rest.sets, k + rest.removed, rest.failed)
  }

  lemma {:induction false} DrainShape(rs: seq<ReplicaSet>, budget: int, q: Quota, broken: set<string>)
    ensures |Cleanup(rs, budget, q, broken).sets| == |rs|
    ensures |ScaleDown(rs, budget, q, broken).sets| == |rs|
  {
    if rs != [] && budget > 0 {
      DrainShape(rs[1..], budget, q, broken);
      DrainShape(rs[1..], budget - Min(budget, rs[0].spec - rs[0].available), q, broken);
      DrainShape(rs[1..], budget - Min(rs[0].spec, budget), q, broken);
    }
  }

  function Position(rs: seq<ReplicaSet>, r: ReplicaSet): (i: nat)
    requires r in rs
    ensures i < |rs| && rs[i] == r
  {
    if rs[0] == r then 0 else 1 + Position(rs[1..], r)
  }

  /** All sets by age, the list `FindNewReplicaSet` leaves behind. */
  function ByAge(newRS: ReplicaSet, olds: seq<ReplicaSet>): (all: seq<ReplicaSet>)
    ensures |all| == |olds| + 1 && newRS in all
  {
    SortKeepsMembers(CreatedBefore, olds + [newRS]);
    Sort(CreatedBefore, olds + [newRS])
  }

  lemma {:induction false} ByAgePermutes(newRS: ReplicaSet, olds: seq<ReplicaSet>)
    ensures multiset(ByAge(newRS, olds)) == multiset(olds) + multiset{newRS}
  {
    SortPermutes(CreatedBefore, olds + [newRS]);
  }

  /** The loop over the old sets alone, highest revision first. */
  function ScaleDownSeparate(f: Fleet, q: Quota, spare: int, broken: set<string>): (Fleet, Drained) {
    var sorted := Sort(RevisionAfter, f.olds);
    var drained := ScaleDown(sorted, Min(spare, ScaleDownLimit(sorted, f.newRS.spec, q)), q, broken);
    (Fleet(f.newRS, drained.sets), drained)
  }

  /** With a shared array, finding the new set sorts the very slots the loop then
      runs over: it sees the oldest `|olds|` of all sets, whichever they are. */
  function ScaleDownShared(f: Fleet, q: Quota, spare: int, broken: set<string>): (Fleet, Drained) {
    var all := ByAge(f.newRS, Sort(RevisionAfter, f.olds));
    var listed := all[..|f.olds|];
    var budget := Min(spare, ScaleDownLimit(listed, f.newRS.spec, q));
    var drained := ScaleDown(listed, budget, q, broken);
    DrainShape(listed, budget, q, broken);
    (Reassembled(drained.sets + all[|f.olds|..], Position(all, f.newRS)), drained)
  }

  function Reassembled(all: seq<ReplicaSet>, i: nat): Fleet
    requires i < |all|
  {
    Fleet(all[i], all[..i] + all[i + 1..])
  }

  /** `scaleDownOldReplicaSetsForRollingUpdate`. */
  function ScaleDownOlds(f: Fleet, q: Quota, shared: bool, broken: set<string>): (Fleet, Drained) {
    var spare := Sum(AvailableOf, f.olds) + f.newRS.available - (q.replicas - q.unavailable);
    if spare <= 0 then (f, Drained(f.olds, 0, false))
    else if shared then ScaleDownShared(f, q, spare, broken)
    else ScaleDownSeparate(f, q, spare, broken)
  }

  /** `scaleUpOldReplicaSets`: the largest old set takes all that is missing. */
  function ScaleUpOlds(active: seq<ReplicaSet>, count: int, q: Quota, broken: set<string>): seq<ReplicaSet> {
    if count <= 0 || active == [] then active
    else
      var sorted := Sort(LargerOrOlder, active);
      if sorted[0].name in broken then sorted
      else [Resized(sorted[0], sorted[0].spec + count, q)] + sorted[1..]
  }

  /** The two scale-down phases of `reconcileOldReplicaSets`. */
  function ShrinkOlds(f: Fleet, q: Quota, budget: int, shared: bool, broken: set<string>): Fleet {
    var idle := Idle(f.olds);
    var cleaned := Cleanup(Sort(CreatedBefore, Active(f.olds)), budget, q, broken);
    if cleaned.failed then f.(olds := cleaned.sets + idle)
    else
      var scaled := ScaleDownOlds(f.(olds := cleaned.sets), q, shared, broken).0;
      scaled.(olds := scaled.olds + idle)
  }

  /** `reconcileOldReplicaSets`. */
  function ReconcileOlds(f: Fleet, q: Quota, shared: bool, broken: set<string>): Fleet {
    var active := Active(f.olds);
    if Size(active) == 0 then f
    else
      var limit := ScaleDownLimit(active, f.newRS.spec, q);
      if limit <= 0 then f.(olds := ScaleUpOlds(active, -limit, q, broken) + Idle(f.olds))
      else
        var newUnavailable := f.newRS.spec - f.newRS.available;
        var spare := Size(f.olds) + f.newRS.spec - (q.replicas - q.unavailable) - newUnavailable;
        if Min(spare, limit) <= 0 then f
        else ShrinkOlds(f, q, Min(spare, limit), shared, broken)
  }

  /** `rolloutRolling`: old sets are touched only when the new one was not. */
  function Round(f: Fleet, q: Quota, shared: bool, broken: set<string>): Fleet {
    var outcome := ReconcileNew(f, q, broken);
    if outcome.failed then f
    else if outcome.scaled then f.(newRS := outcome.newRS)
    else ReconcileOlds(f, q, shared, broken)
  }
}
