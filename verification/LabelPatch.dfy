/** Batch labels on pods (labelpatch/filter.go, labelpatch/patcher.go): which pods
    are considered, and which batch id each gets, up to the planned number per
    batch. Pods are named by their place in the list of all pods. */
module LabelPatch {
  import opened Arithmetic

  /** The hash a pod without a revision label is given through the ReplicaSet and
      Deployment that own it. */
  datatype OwnerHash = NotOwned | Hash(hash: string) | NoHash

  datatype Pod = Pod(
    ordinal: nat,
    terminating: bool,
    templateHash: string,
    revisionHash: string,
    ownerHash: OwnerHash,
    rolloutID: string,
    batchID: Option<int>,
    noNeedUpdate: string)

  datatype Context = Context(
    rolloutID: string,
    revision: string,
    batches: seq<IntOrString>,
    currentBatch: int,
    replicas: int,
    planned: int,
    desired: int,
    partition: IntOrString)

  predicate HasSuffix(s: string, suffix: string) {
    |suffix| <= |s| && s[|s| - |suffix|..] == suffix
  }

  predicate Matches(hash: string, revision: string) {
    hash != "" && HasSuffix(revision, hash)
  }

  /** `IsConsistentWithRevision` on the labels a pod has. */
  predicate IsLabelled(p: Pod, revision: string) {
    Matches(p.templateHash, revision) || Matches(p.revisionHash, revision)
  }

  /** The same, with the hash of its owner where the pod has no revision label. */
  predicate IsUpdated(p: Pod, revision: string) {
    var hash := if p.revisionHash == "" && p.ownerHash.Hash? then p.ownerHash.hash else p.revisionHash;
    Matches(p.templateHash, revision) || Matches(hash, revision)
  }

  /* ---- filters ---- */

  datatype Kind = Terminating | Outdated | High | Low

  function PartitionOf(ctx: Context): int {
    Scaled(ctx.partition, ctx.replicas, true)
  }

  /** How the filter for ordered updates, or the one for unordered ones, sees a pod. */
  function KindOf(ordered: bool, ctx: Context, p: Pod): Kind {
    if p.terminating then Terminating
    else if !IsLabelled(p, ctx.revision) then Outdated
    else if ordered then if p.ordinal >= PartitionOf(ctx) then High else Low
    else if p.noNeedUpdate == ctx.rolloutID && p.rolloutID != ctx.rolloutID then Low
    else High
  }

  predicate Within(list: seq<nat>, pods: seq<Pod>) {
    forall k :: 0 <= k < |list| ==> list[k] < |pods|
  }

  function Select(ordered: bool, ctx: Context, pods: seq<Pod>, list: seq<nat>, kind: Kind): (r: seq<nat>)
    requires Within(list, pods)
    ensures Within(r, pods)
  {
    if list == [] then []
    else
      var rest, x := Select(ordered, ctx, pods, list[..|list| - 1], kind), list[|list| - 1];
      if KindOf(ordered, ctx, pods[x]) == kind then rest + [x] else rest
  }

  /** How many updated pods are needed beyond those that need no update. */
  function Needs(ordered: bool, ctx: Context, low: nat): int {
    if ordered then ctx.replicas - PartitionOf(ctx) else ctx.desired - low
  }

  function Kept(list: seq<nat>, high: seq<nat>, low: seq<nat>, terminating: seq<nat>, need: int, planned: int): seq<nat> {
    if need <= 0 then list
    else if planned - need <= 0 then high + terminating
    else high + low[..Min(planned - need, |low|)] + terminating
  }

  function Filtered(ordered: bool, ctx: Context, pods: seq<Pod>, list: seq<nat>): seq<nat>
    requires Within(list, pods)
  {
    var low := Select(ordered, ctx, pods, list, Low);
    Kept(list, Select(ordered, ctx, pods, list, High), low, Select(ordered, ctx, pods, list, Terminating),
         Needs(ordered, ctx, |low|), ctx.planned)
  }

  /** The two filters differ in the test of a pod and in the count they need; the
      one for ordered updates has sorted the list before. */
  method FilterPods(ordered: bool, ctx: Context, pods: seq<Pod>, list: seq<nat>) returns (kept: seq<nat>)
    requires Within(list, pods)
    ensures kept == Filtered(ordered, ctx, pods, list)
  {
    hide IsLabelled, PartitionOf;
    var terminatingPods, lowPriorityPods, highPriorityPods := [], [], [];
    var noNeedUpdate := 0;
    for i := 0 to |list|
      invariant terminatingPods == Select(ordered, ctx, pods, list[..i], Terminating)
      invariant lowPriorityPods == Select(ordered, ctx, pods, list[..i], Low)
      invariant highPriorityPods == Select(ordered, ctx, pods, list[..i], High)
      invariant noNeedUpdate == |lowPriorityPods|
    {
      var pod := pods[list[i]];
      assert list[..i + 1][..i] == list[..i];
      if pod.terminating {
        terminatingPods := terminatingPods + [list[i]];
      } else if IsLabelled(pod, ctx.revision) {
        if ordered {
          if pod.ordinal >= PartitionOf(ctx) {
            highPriorityPods := highPriorityPods + [list[i]];
          } else {
            noNeedUpdate := noNeedUpdate + 1;
            lowPriorityPods := lowPriorityPods + [list[i]];
          }
        } else if pod.noNeedUpdate == ctx.rolloutID && pod.rolloutID != ctx.rolloutID {
          noNeedUpdate := noNeedUpdate + 1;
          lowPriorityPods := lowPriorityPods + [list[i]];
        } else {
          highPriorityPods := highPriorityPods + [list[i]];
        }
      }
    }
    assert list[..|list|] == list;
    var needUpdate := if ordered then ctx.replicas - PartitionOf(ctx) else ctx.desired - noNeedUpdate;
    if needUpdate <= 0 {
      return list;
    }
    var diff := ctx.planned - needUpdate;
    if diff <= 0 {
      return highPriorityPods + terminatingPods;
    }
    var lastIndex := Min(diff, |lowPriorityPods|);
    return highPriorityPods + lowPriorityPods[..lastIndex] + terminatingPods;
  }

  /* ---- the plan ---- */

  /** `calculateBatchReplicas`: never more than the workload has, never negative. */
  function BatchSize(ctx: Context, i: int): int
    requires 0 <= i < |ctx.batches|
  {
    var size := Scaled(ctx.batches[i], ctx.replicas, true);
    if size > ctx.replicas then ctx.replicas else if size < 0 then 0 else size
  }

  /** The code indexes the batches with the current one. */
  predicate HasCurrentBatch(ctx: Context) {
    0 <= ctx.currentBatch < |ctx.batches|
  }

  function Increment(ctx: Context, i: int): int
    requires HasCurrentBatch(ctx) && 0 <= i < |ctx.batches|
  {
    if i > ctx.currentBatch then 0
    else BatchSize(ctx, i) - (if i == 0 then 0 else BatchSize(ctx, i - 1))
  }

  function Increments(ctx: Context): (r: seq<int>)
    requires HasCurrentBatch(ctx)
    ensures |r| == |ctx.batches|
  {
    seq(|ctx.batches|, i requires 0 <= i < |ctx.batches| => Increment(ctx, i))
  }

  method CalculatePlannedStepIncrements(ctx: Context) returns (res: seq<int>)
    requires HasCurrentBatch(ctx)
    ensures res == Increments(ctx)
  {
    hide BatchSize;
    res := seq(|ctx.batches|, _ => 0);
    for i := 0 to ctx.currentBatch + 1
      invariant |res| == |ctx.batches|
      invariant forall k :: 0 <= k < |res| ==> res[k] == if k < i then BatchSize(ctx, k) else 0
    {
      res := res[i := BatchSize(ctx, i)];
    }
    var i := ctx.currentBatch;
    while i > 0
      invariant 0 <= i <= ctx.currentBatch && |res| == |ctx.batches|
      invariant forall k :: 0 <= k < |res| ==>
        res[k] == if k <= i then BatchSize(ctx, k) else Increment(ctx, k)
    {
      res := res[i := res[i] - res[i - 1]];
      i := i - 1;
    }
  }

  /* ---- patching ---- */

  datatype Mark = Skipped | Loose | Carries(id: int)

  /** What the patcher makes of a pod: not its business, without a valid id of this
      rollout, or carrying one. */
  function MarkOf(ctx: Context, p: Pod): Mark {
    if p.terminating || !IsUpdated(p, ctx.revision) then Skipped
    else if p.rolloutID != ctx.rolloutID || p.batchID.None? then Loose
    else if 0 < p.batchID.value <= |ctx.batches| then Carries(p.batchID.value)
    else Loose
  }

  function LoosePods(ctx: Context, pods: seq<Pod>, list: seq<nat>): (r: seq<nat>)
    requires Within(list, pods)
    ensures Within(r, pods)
  {
    if list == [] then []
    else
      var rest, x := LoosePods(ctx, pods, list[..|list| - 1]), list[|list| - 1];
      if MarkOf(ctx, pods[x]).Loose? then rest + [x] else rest
  }

  function Carrying(ctx: Context, pods: seq<Pod>, list: seq<nat>, id: int): nat
    requires Within(list, pods)
  {
    if list == [] then 0
    else
      var rest, x := Carrying(ctx, pods, list[..|list| - 1], id), list[|list| - 1];
      if MarkOf(ctx, pods[x]) == Carries(id) then rest + 1 else rest
  }

  /** What is still missing of each batch. */
  function Remaining(ctx: Context, pods: seq<Pod>, list: seq<nat>): (r: seq<int>)
    requires Within(list, pods) && HasCurrentBatch(ctx)
    ensures |r| == |ctx.batches|
  {
    seq(|ctx.batches|, i requires 0 <= i < |ctx.batches| => Increment(ctx, i) - Carrying(ctx, pods, list, i + 1))
  }

  /** A pod and the batch id it is given. */
  type Patch = (nat, int)

  /** Last batch first, and the pods from the end of the list. */
  function Assignments(plan: seq<int>, loose: seq<nat>): seq<Patch>
    decreases |plan| + |loose|
  {
    if plan == [] || loose == [] then []
    else
      var i, n := |plan| - 1, |loose|;
      if plan[i] > 0 then [(loose[n - 1], i + 1)] + Assignments(plan[i := plan[i] - 1], loose[..n - 1])
      else Assignments(plan[..i], loose)
  }

  function Patched(ctx: Context, p: Pod, id: int): Pod {
    p.(rolloutID := ctx.rolloutID, batchID := Some(id))
  }

  predicate InPods(patches: seq<Patch>, pods: seq<Pod>) {
    forall k :: 0 <= k < |patches| ==> patches[k].0 < |pods|
  }

  function Apply(ctx: Context, pods: seq<Pod>, patches: seq<Patch>): (r: seq<Pod>)
    requires InPods(patches, pods)
    ensures |r| == |pods|
  {
    if patches == [] then pods
    else
      var before, last := Apply(ctx, pods, patches[..|patches| - 1]), patches[|patches| - 1];
      before[last.0 := Patched(ctx, before[last.0], last.1)]
  }

  function AllPatches(ctx: Context, pods: seq<Pod>, list: seq<nat>): seq<Patch>
    requires Within(list, pods) && HasCurrentBatch(ctx)
  {
    Assignments(Remaining(ctx, pods, list), LoosePods(ctx, pods, list))
  }

  predicate LookupFails(pods: seq<Pod>, list: seq<nat>)
    requires Within(list, pods)
  {
    exists k :: 0 <= k < |list| && LacksHash(pods[list[k]])
  }

  predicate LacksHash(p: Pod) {
    !p.terminating && p.revisionHash == "" && p.ownerHash.NoHash?
  }

  lemma {:induction false} AssignmentsInPods(plan: seq<int>, loose: seq<nat>, pods: seq<Pod>)
    requires Within(loose, pods)
    ensures InPods(Assignments(plan, loose), pods)
    decreases |plan| + |loose|
  {
    if plan != [] && loose != [] {
      var i, n := |plan| - 1, |loose|;
      AssignmentsInPods(plan[..i], loose, pods);
      AssignmentsInPods(plan[i := plan[i] - 1], loose[..n - 1], pods);
    }
  }

  /** Decrements the plan for every id that a pod carries already, and collects the
      pods without one; an owner that cannot be looked up ends the call. */
  method ScanPods(ctx: Context, pods: seq<Pod>, list: seq<nat>) returns (ok: bool, plan: seq<int>, loose: seq<nat>)
    requires Within(list, pods) && HasCurrentBatch(ctx)
    ensures ok == !LookupFails(pods, list)
    ensures ok ==> plan == Remaining(ctx, pods, list) && loose == LoosePods(ctx, pods, list)
  {
    hide IsUpdated, Increment;
    plan := CalculatePlannedStepIncrements(ctx);
    loose := [];
    for k := 0 to |list|
      invariant loose == LoosePods(ctx, pods, list[..k])
      invariant |plan| == |ctx.batches|
      invariant forall i :: 0 <= i < |plan| ==> plan[i] == Increment(ctx, i) - Carrying(ctx, pods, list[..k], i + 1)
      invariant forall j :: 0 <= j < k ==> !LacksHash(pods[list[j]])
    {
      var pod := pods[list[k]];
      assert list[..k + 1][..k] == list[..k];
      if !pod.terminating {
        if pod.revisionHash == "" && pod.ownerHash.NoHash? {
          return false, plan, loose;
        }
        if IsUpdated(pod, ctx.revision) {
          if pod.rolloutID == ctx.rolloutID && pod.batchID.Some? && 0 < pod.batchID.value <= |plan| {
            var i := pod.batchID.value - 1;
            plan := plan[i := plan[i] - 1];
          } else {
            loose := loose + [list[k]];
          }
        }
      }
    }
    assert list[..|list|] == list;
    ok := true;
  }

  /** `patchPodBatchLabel`, when the API server takes `accepted` patches and refuses
      the next one. */
  method PatchPodBatchLabel(ctx: Context, pods: seq<Pod>, list: seq<nat>, accepted: nat) returns (after: seq<Pod>, ok: bool)
    requires Within(list, pods) && HasCurrentBatch(ctx)
    ensures var all := AllPatches(ctx, pods, list);
      && InPods(all, pods)
      && (LookupFails(pods, list) ==> !ok && after == pods)
      && (!LookupFails(pods, list) ==>
            && ok == (|all| <= accepted)
            && after == Apply(ctx, pods, all[..Min(accepted, |all|)]))
  {
    hide Remaining, LoosePods, MarkOf, Assignments, Apply;
    AssignmentsInPods(Remaining(ctx, pods, list), LoosePods(ctx, pods, list), pods);
    ghost var all := AllPatches(ctx, pods, list);
    after := pods;
    ApplyNone(ctx, pods);
    assert all[..0] == [];
    var plan, unpatched;
    ok, plan, unpatched := ScanPods(ctx, pods, list);
    if !ok {
      return;
    }
    ghost var done: seq<Patch> := [];
    var count := 0;
    var i := |plan| - 1;
    assert plan[..i + 1] == plan;
    while i >= 0
      invariant -2 <= i < |plan| && count == |done| <= accepted && Within(unpatched, pods)
      invariant InPods(done, pods) && after == Apply(ctx, pods, done)
      invariant i >= -1 ==> all == done + Assignments(plan[..i + 1], unpatched)
      invariant i == -2 ==> all == done
      decreases i
    {
      var exhausted := false;
      while plan[i] > 0 && !exhausted
        invariant count == |done| <= accepted && Within(unpatched, pods) && i < |plan|
        invariant InPods(done, pods) && after == Apply(ctx, pods, done)
        invariant all == done + Assignments(plan[..i + 1], unpatched)
        invariant exhausted ==> unpatched == []
        decreases !exhausted, plan[i]
      {
        if unpatched == [] {
          exhausted := true;
        } else {
          var pod := unpatched[|unpatched| - 1];
          ghost var next: Patch := (pod, i + 1);
          AssignNext(done, plan[..i + 1], unpatched, all);
          if count == accepted {
            assert all[..accepted] == done;
            ok := false;
            return;
          }
          after := after[pod := Patched(ctx, after[pod], i + 1)];
          ApplyNext(ctx, pods, done, next);
          done := done + [next];
          count := count + 1;
          unpatched := unpatched[..|unpatched| - 1];
          assert plan[..i + 1][i := plan[i] - 1] == plan[i := plan[i] - 1][..i + 1];
          plan := plan[i := plan[i] - 1];
        }
      }
      if exhausted {
        AssignNone(plan[..i + 1], unpatched);
        i := -1;
      } else {
        assert plan[..i + 1][..i] == plan[..i];
        AssignSkip(plan[..i + 1], unpatched);
      }
      i := i - 1;
    }
    AssignNone([], unpatched);
    assert all == done;
    assert all[..|all|] == all;
  }

  lemma ApplyNone(ctx: Context, pods: seq<Pod>)
    ensures Apply(ctx, pods, []) == pods
  {
  }

  lemma ApplyNext(ctx: Context, pods: seq<Pod>, done: seq<Patch>, next: Patch)
    requires InPods(done, pods) && next.0 < |pods|
    ensures InPods(done + [next], pods)
    ensures var before := Apply(ctx, pods, done);
      Apply(ctx, pods, done + [next]) == before[next.0 := Patched(ctx, before[next.0], next.1)]
  {
    assert (done + [next])[..|done|] == done;
  }

  lemma AssignNone(plan: seq<int>, loose: seq<nat>)
    ensures plan == [] || loose == [] ==> Assignments(plan, loose) == []
  {
  }

  lemma AssignSkip(plan: seq<int>, loose: seq<nat>)
    requires plan != [] && plan[|plan| - 1] <= 0
    ensures Assignments(plan, loose) == Assignments(plan[..|plan| - 1], loose)
  {
  }

  lemma {:induction false} AssignNext(done: seq<Patch>, plan: seq<int>, loose: seq<nat>, all: seq<Patch>)
    requires plan != [] && loose != [] && plan[|plan| - 1] > 0
    requires all == done + Assignments(plan, loose)
    ensures var i, n := |plan| - 1, |loose|;
      all == done + [(loose[n - 1], i + 1)] + Assignments(plan[i := plan[i] - 1], loose[..n - 1])
  {
  }
}
