/** What the batch labels are worth: filter, patcher and readiness check agree. */
module LabelPatchProperties {
  import opened Arithmetic
  import opened LabelPatch

  predicate Distinct<T(==)>(s: seq<T>) {
    forall i, j :: 0 <= i < j < |s| ==> s[i] != s[j]
  }

  /* ---- the plan telescopes ---- */

  function Total(s: seq<int>): int {
    if s == [] then 0 else Total(s[..|s| - 1]) + s[|s| - 1]
  }

  /** The number of pods a batch plans of `replicas`: a number held within them, or the
      least one that makes up the percentage. */
  predicate PlannedFor(batch: IntOrString, replicas: int, n: int) {
    && 0 <= n <= replicas
    && match batch
       case Int(k) => (0 <= k <= replicas ==> n == k) && (k < 0 ==> n == 0) && (k > replicas ==> n == replicas)
       case Percent(p) => (n > 0 ==> 100 * (n - 1) < p * replicas) && (n < replicas ==> p * replicas <= 100 * n)
       case Malformed => n == 0
  }

  lemma {:induction false} BatchPlans(ctx: Context, i: nat, n: int)
    requires i < |ctx.batches| && ctx.replicas >= 0
    ensures PlannedFor(ctx.batches[i], ctx.replicas, n) <==> n == BatchSize(ctx, i)
  {
    ScaledRounds(ctx.batches[i], ctx.replicas);
    hide Scaled;
  }

  /** The increments up to any batch that was reached add up to the clamped size of
      that batch; all of them add up to the size of the current one. */
  lemma {:induction false} IncrementsTelescope(ctx: Context, m: nat)
    requires HasCurrentBatch(ctx) && m < |ctx.batches|
    ensures Total(Increments(ctx)[..m + 1]) == BatchSize(ctx, Min(m, ctx.currentBatch))
    decreases m
  {
    hide BatchSize;
    var s := Increments(ctx);
    assert s[..m + 1][..m] == s[..m];
    if m == 0 {
      assert Total(s[..0]) == 0;
    } else {
      IncrementsTelescope(ctx, m - 1);
    }
  }

  /* ---- what is assigned ---- */

  function Missing(plan: seq<int>): nat {
    if plan == [] then 0 else Missing(plan[..|plan| - 1]) + Max(0, plan[|plan| - 1])
  }

  function Given(patches: seq<Patch>, id: int): nat {
    if patches == [] then 0
    else Given(patches[..|patches| - 1], id) + if patches[|patches| - 1].1 == id then 1 else 0
  }

  lemma {:induction false} MissingUpdate(plan: seq<int>, i: nat, x: int)
    requires i < |plan|
    ensures Missing(plan[i := x]) == Missing(plan) - Max(0, plan[i]) + Max(0, x)
  {
    var n := |plan| - 1;
    if i < n {
      MissingUpdate(plan[..n], i, x);
      assert plan[i := x][..n] == plan[..n][i := x];
    } else {
      assert plan[i := x][..n] == plan[..n];
    }
  }

  lemma {:induction false} MissingAtLeast(plan: seq<int>, i: nat)
    requires i < |plan|
    ensures Missing(plan) >= plan[i]
  {
    if i < |plan| - 1 {
      MissingAtLeast(plan[..|plan| - 1], i);
    }
  }

  lemma {:induction false} GivenFirst(p: Patch, rest: seq<Patch>, id: int)
    ensures Given([p] + rest, id) == (if p.1 == id then 1 else 0) + Given(rest, id)
  {
    if rest == [] {
      assert [p] + rest == [p];
      assert Given([p][..0], id) == 0;
    } else {
      assert ([p] + rest)[..|rest|] == [p] + rest[..|rest| - 1];
      GivenFirst(p, rest[..|rest| - 1], id);
    }
  }

  /** The pods are taken from the end of the list, one each, as many as are missing
      or as there are. */
  lemma {:induction false} AssignedFromTheEnd(plan: seq<int>, loose: seq<nat>)
    ensures var a := Assignments(plan, loose);
      && |a| == Min(|loose|, Missing(plan))
      && forall k :: 0 <= k < |a| ==> a[k].0 == loose[|loose| - 1 - k] && 1 <= a[k].1 <= |plan|
    decreases |plan| + |loose|
  {
    if plan != [] && loose != [] {
      var i, n := |plan| - 1, |loose|;
      if plan[i] > 0 {
        MissingUpdate(plan, i, plan[i] - 1);
        MissingAtLeast(plan, i);
        AssignedFromTheEnd(plan[i := plan[i] - 1], loose[..n - 1]);
      } else {
        AssignedFromTheEnd(plan[..i], loose);
      }
    }
  }

  /** No batch is given more than it misses; with enough pods, none less. */
  lemma {:induction false} AssignedAsMissing(plan: seq<int>, loose: seq<nat>, id: int)
    requires 1 <= id <= |plan|
    ensures Given(Assignments(plan, loose), id) <= Max(0, plan[id - 1])
    ensures |loose| >= Missing(plan) ==> Given(Assignments(plan, loose), id) == Max(0, plan[id - 1])
    decreases |plan| + |loose|
  {
    if loose == [] {
      MissingAtLeast(plan, id - 1);
    } else {
      var i, n := |plan| - 1, |loose|;
      if plan[i] > 0 {
        var plan' := plan[i := plan[i] - 1];
        MissingUpdate(plan, i, plan[i] - 1);
        AssignedAsMissing(plan', loose[..n - 1], id);
        GivenFirst((loose[n - 1], i + 1), Assignments(plan', loose[..n - 1]), id);
      } else if id == |plan| {
        AssignedWithinPlan(plan[..i], loose, id);
      } else {
        AssignedAsMissing(plan[..i], loose, id);
      }
    }
  }

  lemma {:induction false} AssignedWithinPlan(plan: seq<int>, loose: seq<nat>, id: int)
    requires id > |plan|
    ensures Given(Assignments(plan, loose), id) == 0
    decreases |plan| + |loose|
  {
    if plan != [] && loose != [] {
      var i, n := |plan| - 1, |loose|;
      if plan[i] > 0 {
        var plan' := plan[i := plan[i] - 1];
        AssignedWithinPlan(plan', loose[..n - 1], id);
        GivenFirst((loose[n - 1], i + 1), Assignments(plan', loose[..n - 1]), id);
      } else {
        AssignedWithinPlan(plan[..i], loose, id);
      }
    }
  }

  /** Once the first assignment is made, the rest is what a fresh start gives. */
  lemma {:induction false} AssignRest(plan: seq<int>, loose: seq<nat>)
    requires Assignments(plan, loose) != []
    ensures var a := Assignments(plan, loose);
      && loose != [] && 1 <= a[0].1 <= |plan| && a[0].0 == loose[|loose| - 1]
      && Assignments(plan[a[0].1 - 1 := plan[a[0].1 - 1] - 1], loose[..|loose| - 1]) == a[1..]
    decreases |plan|
  {
    var i, n := |plan| - 1, |loose|;
    if plan[i] <= 0 {
      AssignRest(plan[..i], loose);
      var a := Assignments(plan[..i], loose);
      var j := a[0].1 - 1;
      assert plan[j := plan[j] - 1][..i] == plan[..i][j := plan[j] - 1];
      if loose[..n - 1] == [] {
        assert Assignments(plan[..i][j := plan[j] - 1], loose[..n - 1]) == [];
      }
    }
  }

  /* ---- one patch ---- */

  lemma {:induction false} LooseMembers(ctx: Context, pods: seq<Pod>, list: seq<nat>)
    requires Within(list, pods)
    ensures forall x :: x in LoosePods(ctx, pods, list) ==> x in list && MarkOf(ctx, pods[x]).Loose?
  {
    hide MarkOf;
    if list != [] {
      LooseMembers(ctx, pods, list[..|list| - 1]);
    }
  }

  /** A change of a pod that is not in the list goes unnoticed. */
  lemma {:induction false} OthersUnaffected(ctx: Context, pods: seq<Pod>, list: seq<nat>, x: nat, p: Pod, id: int)
    requires Within(list, pods) && x < |pods| && x !in list
    ensures LoosePods(ctx, pods[x := p], list) == LoosePods(ctx, pods, list)
    ensures Carrying(ctx, pods[x := p], list, id) == Carrying(ctx, pods, list, id)
  {
    hide MarkOf;
    if list != [] {
      assert list[|list| - 1] in list && forall y :: y in list[..|list| - 1] ==> y in list;
      OthersUnaffected(ctx, pods, list[..|list| - 1], x, p, id);
    }
  }

  lemma {:induction false} PatchedCarries(ctx: Context, p: Pod, id: int)
    requires MarkOf(ctx, p).Loose? && 1 <= id <= |ctx.batches|
    ensures MarkOf(ctx, Patched(ctx, p, id)) == Carries(id)
  {
    assert IsUpdated(Patched(ctx, p, id), ctx.revision) == IsUpdated(p, ctx.revision);
  }

  lemma {:induction false} PatchOne(ctx: Context, pods: seq<Pod>, list: seq<nat>, id: int, c: int)
    requires Within(list, pods) && Distinct(list) && LoosePods(ctx, pods, list) != [] && 1 <= id <= |ctx.batches|
    ensures var loose := LoosePods(ctx, pods, list);
      var x := loose[|loose| - 1];
      var after := pods[x := Patched(ctx, pods[x], id)];
      && LoosePods(ctx, after, list) == loose[..|loose| - 1]
      && Carrying(ctx, after, list, c) == Carrying(ctx, pods, list, c) + if c == id then 1 else 0
  {
    hide IsUpdated;
    var n := |list| - 1;
    var y := list[n];
    var loose := LoosePods(ctx, pods, list);
    var x := loose[|loose| - 1];
    LooseMembers(ctx, pods, list);
    assert x in loose;
    if MarkOf(ctx, pods[y]).Loose? {
      assert y !in list[..n];
      PatchedCarries(ctx, pods[y], id);
      OthersUnaffected(ctx, pods, list[..n], y, Patched(ctx, pods[y], id), c);
    } else {
      PatchOne(ctx, pods, list[..n], id, c);
    }
  }

  /* ---- a run of the patcher ---- */

  /** The first patch of a run takes the last pod without an id, adds one to its batch, and
      leaves the rest of the run to do. */
  lemma {:induction false} AfterOne(ctx: Context, pods: seq<Pod>, list: seq<nat>)
    requires Within(list, pods) && Distinct(list) && HasCurrentBatch(ctx) && AllPatches(ctx, pods, list) != []
    ensures var all, loose := AllPatches(ctx, pods, list), LoosePods(ctx, pods, list);
      var (x, id) := all[0];
      && loose != [] && x < |pods|
      && var after := pods[x := Patched(ctx, pods[x], id)];
      && LoosePods(ctx, after, list) == loose[..|loose| - 1]
      && (forall c :: Carrying(ctx, after, list, c) == Carrying(ctx, pods, list, c) + if c == id then 1 else 0)
      && AllPatches(ctx, after, list) == all[1..]
  {
    hide MarkOf, Increment, Assignments, LoosePods, Carrying, Distinct;
    var plan, loose := Remaining(ctx, pods, list), LoosePods(ctx, pods, list);
    AssignRest(plan, loose);
    var (x, id) := AllPatches(ctx, pods, list)[0];
    var after := pods[x := Patched(ctx, pods[x], id)];
    forall c
      ensures Carrying(ctx, after, list, c) == Carrying(ctx, pods, list, c) + if c == id then 1 else 0
      ensures LoosePods(ctx, after, list) == loose[..|loose| - 1]
    {
      PatchOne(ctx, pods, list, id, c);
    }
    assert Remaining(ctx, after, list) == plan[id - 1 := plan[id - 1] - 1];
  }

  /** After the first `k` patches: the pods left without an id are the front of the
      list, every batch has gained what it was given, and starting over now would
      make exactly the patches that are left. */
  lemma {:induction false} AfterSome(ctx: Context, pods: seq<Pod>, list: seq<nat>, k: nat)
    requires Within(list, pods) && Distinct(list) && HasCurrentBatch(ctx)
    requires k <= |AllPatches(ctx, pods, list)|
    ensures var all, loose := AllPatches(ctx, pods, list), LoosePods(ctx, pods, list);
      && InPods(all[..k], pods) && k <= |loose|
      && var after := Apply(ctx, pods, all[..k]);
      && LoosePods(ctx, after, list) == loose[..|loose| - k]
      && (forall id :: Carrying(ctx, after, list, id) == Carrying(ctx, pods, list, id) + Given(all[..k], id))
      && AllPatches(ctx, after, list) == all[k..]
  {
    hide LoosePods, Carrying, AllPatches, Distinct;
    var all, loose := AllPatches(ctx, pods, list), LoosePods(ctx, pods, list);
    if k == 0 {
      assert all[..0] == [];
      assert all[0..] == all;
    } else {
      AfterSome(ctx, pods, list, k - 1);
      var before := Apply(ctx, pods, all[..k - 1]);
      assert all[..k][..k - 1] == all[..k - 1];
      assert all[k - 1..][0] == all[k - 1];
      AfterOne(ctx, before, list);
      assert all[k - 1..][1..] == all[k..];
      assert loose[..|loose| - (k - 1)][..|loose| - k] == loose[..|loose| - k];
    }
  }

  /** A refused patch costs nothing: the next run makes the patches that were left,
      no more and no others. After a complete run there is nothing left to do. */
  lemma {:induction false} NextRunResumes(ctx: Context, pods: seq<Pod>, list: seq<nat>, accepted: nat)
    requires Within(list, pods) && Distinct(list) && HasCurrentBatch(ctx)
    ensures var all := AllPatches(ctx, pods, list);
      var k := Min(accepted, |all|);
      && InPods(all[..k], pods)
      && AllPatches(ctx, Apply(ctx, pods, all[..k]), list) == all[k..]
      && (|all| <= accepted ==> all[..k] == all && all[k..] == [])
  {
    hide AllPatches, Apply;
    AfterSome(ctx, pods, list, Min(accepted, |AllPatches(ctx, pods, list)|));
  }

  /** At every moment of a run, no batch exceeds the larger of its planned size and
      what it had; at the end of one with enough pods, every batch has just that. */
  lemma {:induction false} CountsAsPlanned(ctx: Context, pods: seq<Pod>, list: seq<nat>, k: nat, id: int)
    requires Within(list, pods) && Distinct(list) && HasCurrentBatch(ctx)
    requires k <= |AllPatches(ctx, pods, list)| && 1 <= id <= |ctx.batches|
    ensures var all := AllPatches(ctx, pods, list);
      && InPods(all[..k], pods)
      && var had, has := Carrying(ctx, pods, list, id), Carrying(ctx, Apply(ctx, pods, all[..k]), list, id);
      && had <= has <= Max(had, Increment(ctx, id - 1))
      && (k == |all| && |LoosePods(ctx, pods, list)| >= Missing(Remaining(ctx, pods, list)) ==>
            has == Max(had, Increment(ctx, id - 1)))
  {
    hide MarkOf, Increment, Apply, Assignments, Missing, LoosePods, Carrying;
    var all := AllPatches(ctx, pods, list);
    AfterSome(ctx, pods, list, k);
    AssignedAsMissing(Remaining(ctx, pods, list), LoosePods(ctx, pods, list), id);
    GivenPrefix(all, k, id);
    assert all[..|all|] == all;
  }

  lemma {:induction false} GivenPrefix(patches: seq<Patch>, k: nat, id: int)
    requires k <= |patches|
    ensures Given(patches[..k], id) <= Given(patches, id)
  {
    if k < |patches| {
      GivenPrefix(patches[..|patches| - 1], k, id);
      assert patches[..|patches| - 1][..k] == patches[..k];
    } else {
      assert patches[..k] == patches;
    }
  }

  /** No pod is patched twice, and none that already carries a valid id, is
      terminating or is not updated, is touched. */
  lemma {:induction false} OnlyLoosePodsOnce(ctx: Context, pods: seq<Pod>, list: seq<nat>)
    requires Within(list, pods) && Distinct(list) && HasCurrentBatch(ctx)
    ensures var all := AllPatches(ctx, pods, list);
      && InPods(all, pods)
      && (forall i, j :: 0 <= i < j < |all| ==> all[i].0 != all[j].0)
      && (forall k :: 0 <= k < |all| ==> all[k].0 in list && MarkOf(ctx, pods[all[k].0]).Loose? && 1 <= all[k].1 <= |ctx.batches|)
      && forall x :: 0 <= x < |pods| && !(MarkOf(ctx, pods[x]).Loose?) ==> Apply(ctx, pods, all)[x] == pods[x]
  {
    hide MarkOf, Increment, Assignments, Missing;
    var all, loose := AllPatches(ctx, pods, list), LoosePods(ctx, pods, list);
    AssignedFromTheEnd(Remaining(ctx, pods, list), loose);
    LooseDistinct(ctx, pods, list);
    LooseMembers(ctx, pods, list);
    forall k | 0 <= k < |all|
      ensures all[k].0 in list && MarkOf(ctx, pods[all[k].0]).Loose?
    {
      assert all[k].0 in loose;
    }
    forall x | 0 <= x < |pods| && !(MarkOf(ctx, pods[x]).Loose?)
      ensures Apply(ctx, pods, all)[x] == pods[x]
    {
      ApplyElsewhere(ctx, pods, all, x);
    }
  }

  lemma {:induction false} LooseDistinct(ctx: Context, pods: seq<Pod>, list: seq<nat>)
    requires Within(list, pods) && Distinct(list)
    ensures Distinct(LoosePods(ctx, pods, list))
  {
    hide MarkOf;
    if list != [] {
      LooseDistinct(ctx, pods, list[..|list| - 1]);
      LooseMembers(ctx, pods, list[..|list| - 1]);
    }
  }

  lemma {:induction false} ApplyElsewhere(ctx: Context, pods: seq<Pod>, patches: seq<Patch>, x: nat)
    requires InPods(patches, pods) && x < |pods| && forall k :: 0 <= k < |patches| ==> patches[k].0 != x
    ensures Apply(ctx, pods, patches)[x] == pods[x]
  {
    if patches != [] {
      ApplyElsewhere(ctx, pods, patches[..|patches| - 1], x);
    }
  }

  /** Exactly one kind of pod ends a run before its first patch: one that is listed, not
      terminating, without a revision label, and whose owner yields no hash either. */
  lemma {:induction false} UnknownOwnerEndsRun(pods: seq<Pod>, list: seq<nat>)
    requires Within(list, pods)
    ensures LookupFails(pods, list) <==>
      exists x :: x in list && !pods[x].terminating && pods[x].revisionHash == "" && pods[x].ownerHash.NoHash?
  {
    if x :| x in list && !pods[x].terminating && pods[x].revisionHash == "" && pods[x].ownerHash.NoHash? {
      var k :| 0 <= k < |list| && list[k] == x;
      assert LacksHash(pods[list[k]]);
    }
  }

  /* ---- the readiness check ---- */

  function CountLabels(ctx: Context, pods: seq<Pod>, list: seq<nat>): nat
    requires Within(list, pods)
  {
    if list == [] then 0
    else
      var rest, p := CountLabels(ctx, pods, list[..|list| - 1]), pods[list[|list| - 1]];
      if !p.terminating && p.rolloutID == ctx.rolloutID then rest + 1 else rest
  }

  function Everyone(n: nat): (r: seq<nat>)
    ensures |r| == n && forall k :: 0 <= k < n ==> r[k] == k
  {
    seq(n, i requires 0 <= i < n => i)
  }

  /** `batchLabelSatisfied`. */
  predicate LabelsSatisfied(ctx: Context, pods: seq<Pod>) {
    ctx.rolloutID == "" || ctx.planned <= 0 || (pods != [] && CountLabels(ctx, pods, Everyone(|pods|)) >= ctx.planned)
  }

  function CountUpdated(ctx: Context, pods: seq<Pod>, list: seq<nat>): nat
    requires Within(list, pods)
  {
    if list == [] then 0
    else
      var rest, p := CountUpdated(ctx, pods, list[..|list| - 1]), pods[list[|list| - 1]];
      if !p.terminating && IsUpdated(p, ctx.revision) then rest + 1 else rest
  }

  /** The pods that carry some valid id up to `m`. */
  function CarryingUpTo(ctx: Context, pods: seq<Pod>, list: seq<nat>, m: nat): nat
    requires Within(list, pods)
  {
    if m == 0 then 0 else CarryingUpTo(ctx, pods, list, m - 1) + Carrying(ctx, pods, list, m)
  }

  lemma {:induction false} CarryingUpToStep(ctx: Context, pods: seq<Pod>, list: seq<nat>, m: nat)
    requires Within(list, pods) && list != []
    ensures var mark := MarkOf(ctx, pods[list[|list| - 1]]);
      CarryingUpTo(ctx, pods, list, m) == CarryingUpTo(ctx, pods, list[..|list| - 1], m)
                                          + if mark.Carries? && 1 <= mark.id <= m then 1 else 0
  {
    hide MarkOf;
    if m > 0 {
      CarryingUpToStep(ctx, pods, list, m - 1);
    }
  }

  lemma {:induction false} CarryingUpToNone(ctx: Context, pods: seq<Pod>, m: nat)
    ensures CarryingUpTo(ctx, pods, [], m) == 0
  {
    if m > 0 {
      CarryingUpToNone(ctx, pods, m - 1);
    }
  }

  /** Every updated pod is loose or carries one valid id; those that do are labelled. */
  lemma {:induction false} LooseOrCarrying(ctx: Context, pods: seq<Pod>, list: seq<nat>)
    requires Within(list, pods)
    ensures var carrying := CarryingUpTo(ctx, pods, list, |ctx.batches|);
      && CountUpdated(ctx, pods, list) == |LoosePods(ctx, pods, list)| + carrying
      && carrying <= CountLabels(ctx, pods, list)
  {
    hide IsUpdated;
    if list == [] {
      CarryingUpToNone(ctx, pods, |ctx.batches|);
    } else {
      LooseOrCarrying(ctx, pods, list[..|list| - 1]);
      CarryingUpToStep(ctx, pods, list, |ctx.batches|);
    }
  }

  /** Distinct pods of a list are at most all pods. */
  lemma {:induction false} LabelsInAll(ctx: Context, pods: seq<Pod>, list: seq<nat>)
    requires Within(list, pods) && Distinct(list)
    ensures CountLabels(ctx, pods, list) <= CountLabels(ctx, pods, Everyone(|pods|))
  {
    var all := Everyone(|pods|);
    LabelSet(ctx, pods, list);
    LabelSet(ctx, pods, all);
    var small, large := Labelled(ctx, pods, list), Labelled(ctx, pods, all);
    forall x | x in small
      ensures x in large
    {
      assert all[x] == x;
    }
    SubsetIsSmaller(small, large);
  }

  ghost function Labelled(ctx: Context, pods: seq<Pod>, list: seq<nat>): set<nat>
    requires Within(list, pods)
  {
    set x | x in list && x < |pods| && !pods[x].terminating && pods[x].rolloutID == ctx.rolloutID
  }

  lemma {:induction false} LabelledStep(ctx: Context, pods: seq<Pod>, front: seq<nat>, x: nat)
    requires Within(front, pods) && x < |pods| && x !in front
    ensures Within(front + [x], pods)
    ensures var labelled := !pods[x].terminating && pods[x].rolloutID == ctx.rolloutID;
      && x !in Labelled(ctx, pods, front)
      && Labelled(ctx, pods, front + [x]) == if labelled then Labelled(ctx, pods, front) + {x} else Labelled(ctx, pods, front)
  {
    assert forall y :: y in front + [x] <==> y in front || y == x;
  }

  lemma {:induction false} LabelSet(ctx: Context, pods: seq<Pod>, list: seq<nat>)
    requires Within(list, pods) && Distinct(list)
    ensures |Labelled(ctx, pods, list)| == CountLabels(ctx, pods, list)
  {
    if list == [] {
      assert Labelled(ctx, pods, list) == {};
    } else {
      hide Labelled;
      var front, x := list[..|list| - 1], list[|list| - 1];
      LabelSet(ctx, pods, front);
      assert list == front + [x];
      LabelledStep(ctx, pods, front, x);
    }
  }

  lemma {:induction false} SubsetIsSmaller(a: set<nat>, b: set<nat>)
    requires a <= b
    ensures |a| <= |b|
  {
    assert b == a + (b - a);
  }

  lemma {:induction false} CarryingAtLeast(ctx: Context, pods: seq<Pod>, list: seq<nat>, m: nat)
    requires Within(list, pods) && HasCurrentBatch(ctx) && m <= |ctx.batches|
    requires forall id :: 1 <= id <= |ctx.batches| ==> Carrying(ctx, pods, list, id) >= Increment(ctx, id - 1)
    ensures CarryingUpTo(ctx, pods, list, m) >= Total(Increments(ctx)[..m])
  {
    hide Increment;
    if m > 0 {
      CarryingAtLeast(ctx, pods, list, m - 1);
      assert Increments(ctx)[..m][..m - 1] == Increments(ctx)[..m - 1];
    } else {
      assert Increments(ctx)[..0] == [];
    }
  }

  /** A complete run over a list with enough updated pods satisfies the check, also
      when it runs out of pods before every batch has its number. */
  lemma {:induction false} CompleteRunSatisfies(ctx: Context, pods: seq<Pod>, list: seq<nat>)
    requires Within(list, pods) && Distinct(list) && HasCurrentBatch(ctx)
    requires ctx.planned == BatchSize(ctx, ctx.currentBatch)
    requires CountUpdated(ctx, pods, list) >= ctx.planned
    ensures InPods(AllPatches(ctx, pods, list), pods)
    ensures LabelsSatisfied(ctx, Apply(ctx, pods, AllPatches(ctx, pods, list)))
  {
    hide MarkOf, Increment, Assignments, Missing, LoosePods, Carrying, BatchSize, CountLabels, CountUpdated;
    var all, loose := AllPatches(ctx, pods, list), LoosePods(ctx, pods, list);
    var plan := Remaining(ctx, pods, list);
    assert all[..|all|] == all;
    AfterSome(ctx, pods, list, |all|);
    AssignedFromTheEnd(plan, loose);
    var after := Apply(ctx, pods, all);
    LooseOrCarrying(ctx, after, list);
    LabelsInAll(ctx, after, list);
    if |loose| >= Missing(plan) {
      forall id | 1 <= id <= |ctx.batches|
        ensures Carrying(ctx, after, list, id) >= Increment(ctx, id - 1)
      {
        CountsAsPlanned(ctx, pods, list, |all|, id);
      }
      CarryingAtLeast(ctx, after, list, |ctx.batches|);
      IncrementsTelescope(ctx, |ctx.batches| - 1);
      assert Increments(ctx)[..|ctx.batches|] == Increments(ctx);
    } else {
      UpdatedStayUpdated(ctx, pods, all, list);
    }
    NoneUpdated(ctx, pods, list);
  }

  lemma {:induction false} NoneUpdated(ctx: Context, pods: seq<Pod>, list: seq<nat>)
    requires Within(list, pods)
    ensures pods == [] ==> CountUpdated(ctx, pods, list) == 0
  {
    assert list != [] ==> list[0] < |pods|;
  }

  lemma {:induction false} UpdatedStayUpdated(ctx: Context, pods: seq<Pod>, patches: seq<Patch>, list: seq<nat>)
    requires Within(list, pods) && InPods(patches, pods)
    ensures CountUpdated(ctx, Apply(ctx, pods, patches), list) == CountUpdated(ctx, pods, list)
  {
    if list != [] {
      UpdatedStayUpdated(ctx, pods, patches, list[..|list| - 1]);
      SamePod(ctx, pods, patches, list[|list| - 1]);
    }
  }

  lemma {:induction false} SamePod(ctx: Context, pods: seq<Pod>, patches: seq<Patch>, x: nat)
    requires InPods(patches, pods) && x < |pods|
    ensures var p, q := pods[x], Apply(ctx, pods, patches)[x];
      q == p.(rolloutID := q.rolloutID, batchID := q.batchID)
  {
    if patches != [] {
      SamePod(ctx, pods, patches[..|patches| - 1], x);
    }
  }

  /* ---- the filters keep enough ---- */

  lemma {:induction false} SelectMembers(ordered: bool, ctx: Context, pods: seq<Pod>, list: seq<nat>, kind: Kind)
    requires Within(list, pods)
    ensures forall x :: x in Select(ordered, ctx, pods, list, kind) ==> x in list && KindOf(ordered, ctx, pods[x]) == kind
    ensures Distinct(list) ==> Distinct(Select(ordered, ctx, pods, list, kind))
  {
    hide KindOf;
    if list != [] {
      SelectMembers(ordered, ctx, pods, list[..|list| - 1], kind);
    }
  }

  lemma {:induction false} SelectsAll(ordered: bool, ctx: Context, pods: seq<Pod>, list: seq<nat>, kind: Kind)
    requires Within(list, pods)
    ensures forall x :: x in list && KindOf(ordered, ctx, pods[x]) == kind ==> x in Select(ordered, ctx, pods, list, kind)
  {
    hide KindOf;
    if list != [] {
      var front, last := list[..|list| - 1], list[|list| - 1];
      SelectsAll(ordered, ctx, pods, front, kind);
      assert forall x :: x in list <==> x in front || x == last;
    }
  }

  lemma {:induction false} FilteredDistinct(ordered: bool, ctx: Context, pods: seq<Pod>, list: seq<nat>)
    requires Within(list, pods) && Distinct(list)
    ensures Within(Filtered(ordered, ctx, pods, list), pods) && Distinct(Filtered(ordered, ctx, pods, list))
  {
    hide KindOf, Select, Needs;
    SelectMembers(ordered, ctx, pods, list, High);
    SelectMembers(ordered, ctx, pods, list, Low);
    SelectMembers(ordered, ctx, pods, list, Terminating);
    var high, low := Select(ordered, ctx, pods, list, High), Select(ordered, ctx, pods, list, Low);
    var terminating := Select(ordered, ctx, pods, list, Terminating);
    DistinctParts(pods, high, low, terminating, ordered, ctx);
  }

  lemma {:induction false} DistinctParts(pods: seq<Pod>, high: seq<nat>, low: seq<nat>, terminating: seq<nat>, ordered: bool, ctx: Context)
    requires Within(high, pods) && Within(low, pods) && Within(terminating, pods)
    requires Distinct(high) && Distinct(low) && Distinct(terminating)
    requires forall x :: x in high ==> KindOf(ordered, ctx, pods[x]) == High
    requires forall x :: x in low ==> KindOf(ordered, ctx, pods[x]) == Low
    requires forall x :: x in terminating ==> KindOf(ordered, ctx, pods[x]) == Terminating
    ensures Distinct(high + terminating)
    ensures forall m :: 0 <= m <= |low| ==> Distinct(high + low[..m] + terminating)
  {
    hide KindOf;
    assert forall i :: 0 <= i < |high| ==> high[i] in high;
    assert forall i :: 0 <= i < |low| ==> low[i] in low;
    assert forall i :: 0 <= i < |terminating| ==> terminating[i] in terminating;
  }

  lemma {:induction false} UpdatedConcat(ctx: Context, pods: seq<Pod>, s: seq<nat>, t: seq<nat>)
    requires Within(s, pods) && Within(t, pods)
    ensures Within(s + t, pods) && CountUpdated(ctx, pods, s + t) == CountUpdated(ctx, pods, s) + CountUpdated(ctx, pods, t)
  {
    hide IsUpdated;
    if t == [] {
      assert s + t == s;
    } else {
      UpdatedConcat(ctx, pods, s, t[..|t| - 1]);
      assert (s + t)[..|s + t| - 1] == s + t[..|t| - 1];
    }
  }

  lemma {:induction false} AllUpdated(ordered: bool, ctx: Context, pods: seq<Pod>, s: seq<nat>, kind: Kind)
    requires Within(s, pods) && (kind.High? || kind.Low?)
    requires forall x :: x in s ==> KindOf(ordered, ctx, pods[x]) == kind
    ensures CountUpdated(ctx, pods, s) == |s|
  {
    if s != [] {
      assert s[|s| - 1] in s;
      assert forall x :: x in s[..|s| - 1] ==> x in s;
      AllUpdated(ordered, ctx, pods, s[..|s| - 1], kind);
    }
  }

  lemma {:induction false} UpdatedAtLeastKinds(ordered: bool, ctx: Context, pods: seq<Pod>, list: seq<nat>)
    requires Within(list, pods)
    ensures CountUpdated(ctx, pods, list)
            >= |Select(ordered, ctx, pods, list, High)| + |Select(ordered, ctx, pods, list, Low)|
  {
    hide HasSuffix, PartitionOf;
    if list != [] {
      UpdatedAtLeastKinds(ordered, ctx, pods, list[..|list| - 1]);
    }
  }

  /** A revision ends with a hash that is not empty. */
  predicate EndsWith(revision: string, hash: string) {
    hash != "" && |hash| <= |revision| && revision == revision[..|revision| - |hash|] + hash
  }

  /** A pod is of a revision by one of its labels; or, where it has no revision label, by
      the hash of its owner. */
  lemma {:induction false} OfRevision(p: Pod, revision: string)
    ensures IsLabelled(p, revision) <==> EndsWith(revision, p.templateHash) || EndsWith(revision, p.revisionHash)
    ensures IsUpdated(p, revision) <==>
      IsLabelled(p, revision) || (p.revisionHash == "" && p.ownerHash.Hash? && EndsWith(revision, p.ownerHash.hash))
  {
    Suffixes(revision, p.templateHash);
    Suffixes(revision, p.revisionHash);
    if p.ownerHash.Hash? {
      Suffixes(revision, p.ownerHash.hash);
    }
    hide HasSuffix, EndsWith;
  }

  lemma {:induction false} Suffixes(revision: string, hash: string)
    ensures EndsWith(revision, hash) <==> Matches(hash, revision)
    ensures !EndsWith(revision, "")
  {
    if |hash| <= |revision| {
      assert revision == revision[..|revision| - |hash|] + revision[|revision| - |hash|..];
    }
  }

  /** The pods that a filter prefers: those from the partition on, `n` pods; or those that
      are not marked as needing no update in this rollout. */
  predicate Preferred(ordered: bool, ctx: Context, n: int, p: Pod) {
    if ordered then n <= p.ordinal else p.noNeedUpdate != ctx.rolloutID || p.rolloutID == ctx.rolloutID
  }

  /** How many more are needed than those not preferred. */
  predicate NeedIs(ordered: bool, ctx: Context, pods: seq<Pod>, list: seq<nat>, n: int, need: int)
    requires Within(list, pods)
  {
    if ordered then need == ctx.replicas - n else need == ctx.desired - |Select(false, ctx, pods, list, Low)|
  }

  /** What a filter keeps: everything if no more are needed; else all terminating pods and
      all preferred ones of the revision, none of another revision, and of those not
      preferred as many as are planned beyond the need. */
  lemma {:induction false} FilterKeeps(ordered: bool, ctx: Context, pods: seq<Pod>, list: seq<nat>, n: int, need: int)
    requires Within(list, pods) && Distinct(list) && IsRoundedUp(ctx.partition, ctx.replicas, n)
    requires NeedIs(ordered, ctx, pods, list, n, need)
    ensures var kept := Filtered(ordered, ctx, pods, list);
      if need <= 0 then kept == list
      else
        && (forall x :: x in list ==>
              && (pods[x].terminating ==> x in kept)
              && (!pods[x].terminating && !IsLabelled(pods[x], ctx.revision) ==> x !in kept)
              && (!pods[x].terminating && IsLabelled(pods[x], ctx.revision) && Preferred(ordered, ctx, n, pods[x]) ==> x in kept))
        && (forall x :: x in kept ==> x in list)
        && |kept| == |Select(ordered, ctx, pods, list, Terminating)| + |Select(ordered, ctx, pods, list, High)|
                     + Max(0, Min(ctx.planned - need, |Select(ordered, ctx, pods, list, Low)|))
  {
    PartitionIs(ctx, n);
    SelectMembers(ordered, ctx, pods, list, High);
    SelectMembers(ordered, ctx, pods, list, Low);
    SelectMembers(ordered, ctx, pods, list, Terminating);
    SelectsAll(ordered, ctx, pods, list, High);
    SelectsAll(ordered, ctx, pods, list, Terminating);
    KindsMean(ordered, ctx, pods, list, n);
    hide KindOf, Select, IsLabelled, PartitionOf, Preferred;
  }

  lemma {:induction false} PartitionIs(ctx: Context, n: int)
    requires IsRoundedUp(ctx.partition, ctx.replicas, n)
    ensures PartitionOf(ctx) == n
  {
    ScaledRounds(ctx.partition, ctx.replicas);
    hide Scaled;
  }

  lemma {:induction false} KindsMean(ordered: bool, ctx: Context, pods: seq<Pod>, list: seq<nat>, n: int)
    requires Within(list, pods) && PartitionOf(ctx) == n
    ensures forall x :: x in list ==>
      KindOf(ordered, ctx, pods[x])
      == if pods[x].terminating then Terminating
         else if !IsLabelled(pods[x], ctx.revision) then Outdated
         else if Preferred(ordered, ctx, n, pods[x]) then High
         else Low
  {
    hide IsLabelled, PartitionOf;
  }

  /** The filter for unordered updates keeps enough pods for the planned labels if
      there are as many as desired and as planned. The one for ordered updates keeps
      enough if, besides, all ordinals from the partition on are updated. */
  lemma {:induction false} FilterKeepsEnough(ordered: bool, ctx: Context, pods: seq<Pod>, list: seq<nat>)
    requires Within(list, pods) && Distinct(list)
    requires var high, low := |Select(ordered, ctx, pods, list, High)|, |Select(ordered, ctx, pods, list, Low)|;
      && high + low >= ctx.planned
      && if ordered then high >= ctx.replicas - PartitionOf(ctx) else high + low >= ctx.desired
    ensures Within(Filtered(ordered, ctx, pods, list), pods)
    ensures CountUpdated(ctx, pods, Filtered(ordered, ctx, pods, list)) >= ctx.planned
  {
    hide KindOf, Select, CountUpdated, PartitionOf;
    FilteredDistinct(ordered, ctx, pods, list);
    SelectMembers(ordered, ctx, pods, list, High);
    SelectMembers(ordered, ctx, pods, list, Low);
    var high, low := Select(ordered, ctx, pods, list, High), Select(ordered, ctx, pods, list, Low);
    var terminating := Select(ordered, ctx, pods, list, Terminating);
    var need := Needs(ordered, ctx, |low|);
    AllUpdated(ordered, ctx, pods, high, High);
    if need <= 0 {
      UpdatedAtLeastKinds(ordered, ctx, pods, list);
    } else if ctx.planned - need <= 0 {
      UpdatedConcat(ctx, pods, high, terminating);
    } else {
      var some := low[..Min(ctx.planned - need, |low|)];
      assert forall x :: x in some ==> x in low;
      AllUpdated(ordered, ctx, pods, some, Low);
      UpdatedConcat(ctx, pods, high, some);
      UpdatedConcat(ctx, pods, high + some, terminating);
    }
  }

  /** With as many updated pods as desired and as planned, a complete run after the
      filter leaves no batch stuck on its labels. */
  lemma {:induction false} FilteredRunSatisfies(ordered: bool, ctx: Context, pods: seq<Pod>)
    requires HasCurrentBatch(ctx) && ctx.planned == BatchSize(ctx, ctx.currentBatch)
    requires var all := Everyone(|pods|);
      var high, low := |Select(ordered, ctx, pods, all, High)|, |Select(ordered, ctx, pods, all, Low)|;
      && high + low >= ctx.planned
      && if ordered then high >= ctx.replicas - PartitionOf(ctx) else high + low >= ctx.desired
    ensures var list := Filtered(ordered, ctx, pods, Everyone(|pods|));
      && Within(list, pods) && InPods(AllPatches(ctx, pods, list), pods)
      && LabelsSatisfied(ctx, Apply(ctx, pods, AllPatches(ctx, pods, list)))
  {
    hide Filtered, Select, AllPatches, LabelsSatisfied;
    FilterKeepsEnough(ordered, ctx, pods, Everyone(|pods|));
    FilteredDistinct(ordered, ctx, pods, Everyone(|pods|));
    CompleteRunSatisfies(ctx, pods, Filtered(ordered, ctx, pods, Everyone(|pods|)));
  }

  /** `IsBatchReady` on counts: enough pods updated, enough of them ready but for the
      tolerated ones, and at least one ready. */
  predicate CountsReady(ctx: Context, threshold: Option<IntOrString>, updated: int, updatedReady: int) {
    var tolerated := if threshold.Some? then Scaled(threshold.value, updated, true) else 0;
    && updated >= ctx.desired
    && tolerated + updatedReady >= ctx.desired
    && (ctx.desired > 0 ==> updatedReady != 0)
  }

  predicate BatchReady(ctx: Context, threshold: Option<IntOrString>, updated: int, updatedReady: int, pods: seq<Pod>) {
    CountsReady(ctx, threshold, updated, updatedReady) && LabelsSatisfied(ctx, pods)
  }

  /** What a ready batch guarantees: all desired pods are updated; they are ready but for
      as many as the threshold tolerates, none without a threshold; and not all are
      unready. */
  predicate EnoughReady(desired: int, threshold: Option<IntOrString>, updated: int, updatedReady: int) {
    && desired <= updated
    && (desired > 0 ==> updatedReady != 0)
    && match threshold
       case None => desired <= updatedReady
       case Some(Int(k)) => desired - k <= updatedReady
       case Some(Percent(p)) => 100 * (desired - updatedReady) < p * updated + 100
       case Some(Malformed) => desired <= updatedReady
  }

  lemma {:induction false} CountsMeanEnough(ctx: Context, threshold: Option<IntOrString>, updated: int, updatedReady: int)
    ensures CountsReady(ctx, threshold, updated, updatedReady) <==> EnoughReady(ctx.desired, threshold, updated, updatedReady)
  {
    if threshold.Some? {
      ScaledRounds(threshold.value, updated);
    }
    hide Scaled;
  }

  /** The pods that live and carry the id of the rollout. */
  function HasRolloutID(ctx: Context): Pod -> bool {
    (p: Pod) => !p.terminating && p.rolloutID == ctx.rolloutID
  }

  lemma {:induction false} LabelsCounted(ctx: Context, pods: seq<Pod>, n: nat)
    requires n <= |pods|
    ensures CountLabels(ctx, pods, Everyone(n)) == HowMany(pods[..n], HasRolloutID(ctx))
  {
    if n == 0 {
      NoneOfNothing(HasRolloutID(ctx));
    } else {
      assert Everyone(n)[..n - 1] == Everyone(n - 1);
      LabelsCounted(ctx, pods, n - 1);
      assert pods[..n][..n - 1] == pods[..n - 1];
      OneMore(pods[..n], HasRolloutID(ctx));
    }
  }

  /** A batch is ready if and only if enough pods are, and, for a rollout with an id, as
      many carry it as are planned. */
  lemma {:induction false} ReadyExactlyWhen(ctx: Context, threshold: Option<IntOrString>, updated: int, updatedReady: int, pods: seq<Pod>)
    ensures BatchReady(ctx, threshold, updated, updatedReady, pods)
            <==> && EnoughReady(ctx.desired, threshold, updated, updatedReady)
                 && (ctx.rolloutID != "" && ctx.planned > 0 ==> HowMany(pods, HasRolloutID(ctx)) >= ctx.planned)
  {
    CountsMeanEnough(ctx, threshold, updated, updatedReady);
    LabelsCounted(ctx, pods, |pods|);
    assert pods[..|pods|] == pods;
    NoneOfNothing(HasRolloutID(ctx));
    hide EnoughReady, CountsReady, HowMany;
  }

  /** After a complete run the labels never decide: a batch is ready if and only if
      enough pods are, given that the workload counts no more updated pods than there
      are and the desired number is not below the planned one. */
  lemma {:induction false} LabelsNeverDecide(ctx: Context, pods: seq<Pod>, threshold: Option<IntOrString>, updated: int, updatedReady: int)
    requires HasCurrentBatch(ctx) && ctx.planned == BatchSize(ctx, ctx.currentBatch) && ctx.desired >= ctx.planned
    requires var all := Everyone(|pods|);
      |Select(false, ctx, pods, all, High)| + |Select(false, ctx, pods, all, Low)| >= updated
    ensures var list := Filtered(false, ctx, pods, Everyone(|pods|));
      && Within(list, pods) && InPods(AllPatches(ctx, pods, list), pods)
      && var after := Apply(ctx, pods, AllPatches(ctx, pods, list));
      BatchReady(ctx, threshold, updated, updatedReady, after) <==> EnoughReady(ctx.desired, threshold, updated, updatedReady)
  {
    CountsMeanEnough(ctx, threshold, updated, updatedReady);
    hide Filtered, Select, AllPatches, LabelsSatisfied;
    FilteredDistinct(false, ctx, pods, Everyone(|pods|));
    PatchesInPods(ctx, pods, Filtered(false, ctx, pods, Everyone(|pods|)));
    if CountsReady(ctx, threshold, updated, updatedReady) {
      FilteredRunSatisfies(false, ctx, pods);
    }
  }

  lemma {:induction false} PatchesInPods(ctx: Context, pods: seq<Pod>, list: seq<nat>)
    requires Within(list, pods) && HasCurrentBatch(ctx)
    ensures InPods(AllPatches(ctx, pods, list), pods)
  {
    hide Remaining, LoosePods;
    AssignmentsInPods(Remaining(ctx, pods, list), LoosePods(ctx, pods, list), pods);
  }

  /* ---- priority ---- */

  /** Pods that are patched in a complete run. */
  predicate IsPatched(ctx: Context, pods: seq<Pod>, list: seq<nat>, x: nat)
    requires Within(list, pods) && HasCurrentBatch(ctx)
  {
    exists k :: 0 <= k < |AllPatches(ctx, pods, list)| && AllPatches(ctx, pods, list)[k].0 == x
  }

  /** The pods that lack an id are patched from the end of their list: exactly the
      last ones, as many as patches are due. */
  lemma {:induction false} PatchedAreLast(ctx: Context, pods: seq<Pod>, list: seq<nat>, i: nat)
    requires Within(list, pods) && Distinct(list) && HasCurrentBatch(ctx)
    requires i < |LoosePods(ctx, pods, list)|
    ensures IsPatched(ctx, pods, list, LoosePods(ctx, pods, list)[i])
            <==> i >= |LoosePods(ctx, pods, list)| - Missing(Remaining(ctx, pods, list))
  {
    hide Remaining, LoosePods, Assignments, Missing;
    var all, loose := AllPatches(ctx, pods, list), LoosePods(ctx, pods, list);
    AssignedFromTheEnd(Remaining(ctx, pods, list), loose);
    LooseDistinct(ctx, pods, list);
    if i >= |loose| - |all| {
      assert all[|loose| - 1 - i].0 == loose[i];
    }
    if k :| 0 <= k < |all| && all[k].0 == loose[i] {
      assert loose[|loose| - 1 - k] == loose[i];
    }
  }

  /** A pod of low priority, marked as needing no update, is patched, and one of high
      priority, that was really updated, is left without an id. */
  ghost predicate LowBeforeHigh(ctx: Context, pods: seq<Pod>, list: seq<nat>)
    requires Within(list, pods) && HasCurrentBatch(ctx)
  {
    exists low: nat, high: nat ::
      && LooseOf(ctx, pods, list, low, Low) && LooseOf(ctx, pods, list, high, High)
      && IsPatched(ctx, pods, list, low) && !IsPatched(ctx, pods, list, high)
  }

  predicate LooseOf(ctx: Context, pods: seq<Pod>, list: seq<nat>, x: nat, kind: Kind)
    requires Within(list, pods)
  {
    x in LoosePods(ctx, pods, list) && KindOf(false, ctx, pods[x]) == kind
  }

  ghost predicate SomeLoose(ctx: Context, pods: seq<Pod>, list: seq<nat>, kind: Kind)
    requires Within(list, pods)
  {
    exists x: nat :: LooseOf(ctx, pods, list, x, kind)
  }

  /** Behind the filter no pod of high priority comes after one of low priority, unless
      nothing needs an update and the list is kept as it is. */
  ghost predicate HighFirst(ctx: Context, pods: seq<Pod>, list: seq<nat>)
    requires Within(list, pods)
  {
    forall i, j :: 0 <= i < j < |list| ==>
      KindOf(false, ctx, pods[list[i]]).Low? ==> !KindOf(false, ctx, pods[list[j]]).High?
  }

  lemma {:induction false} FilteredHighFirst(ctx: Context, pods: seq<Pod>, list: seq<nat>)
    requires Within(list, pods) && Distinct(list)
    requires Needs(false, ctx, |Select(false, ctx, pods, list, Low)|) > 0
    ensures Within(Filtered(false, ctx, pods, list), pods) && HighFirst(ctx, pods, Filtered(false, ctx, pods, list))
  {
    hide KindOf, Select, Needs;
    FilteredDistinct(false, ctx, pods, list);
    SelectMembers(false, ctx, pods, list, High);
    SelectMembers(false, ctx, pods, list, Low);
    SelectMembers(false, ctx, pods, list, Terminating);
    var high, low := Select(false, ctx, pods, list, High), Select(false, ctx, pods, list, Low);
    assert forall i :: 0 <= i < |high| ==> high[i] in high;
    assert forall i :: 0 <= i < |low| ==> low[i] in low;
    var terminating := Select(false, ctx, pods, list, Terminating);
    assert forall i :: 0 <= i < |terminating| ==> terminating[i] in terminating;
  }

  lemma {:induction false} LooseHighFirst(ctx: Context, pods: seq<Pod>, list: seq<nat>)
    requires Within(list, pods) && HighFirst(ctx, pods, list)
    ensures HighFirst(ctx, pods, LoosePods(ctx, pods, list))
  {
    hide KindOf, MarkOf;
    if list != [] {
      var front, x := list[..|list| - 1], list[|list| - 1];
      assert forall i, j :: 0 <= i < j < |front| ==> list[i] == front[i] && list[j] == front[j];
      LooseHighFirst(ctx, pods, front);
      LooseMembers(ctx, pods, front);
      forall i | 0 <= i < |LoosePods(ctx, pods, front)|
        ensures KindOf(false, ctx, pods[LoosePods(ctx, pods, front)[i]]).Low? ==> !KindOf(false, ctx, pods[x]).High?
      {
        assert LoosePods(ctx, pods, front)[i] in front;
        var k :| 0 <= k < |front| && front[k] == LoosePods(ctx, pods, front)[i];
        assert list[k] == front[k];
      }
    }
  }

  /** By place: a loose pod of high priority among those not due a patch, and one of
      low priority among those that are. */
  ghost predicate LowBehind(ctx: Context, pods: seq<Pod>, list: seq<nat>)
    requires Within(list, pods) && HasCurrentBatch(ctx)
  {
    var loose, due := LoosePods(ctx, pods, list), Missing(Remaining(ctx, pods, list));
    exists i, j :: 0 <= i < |loose| - due <= j < |loose|
      && KindOf(false, ctx, pods[loose[i]]).High? && KindOf(false, ctx, pods[loose[j]]).Low?
  }

  lemma {:induction false} LowFirstByPlace(ctx: Context, pods: seq<Pod>, list: seq<nat>)
    requires Within(list, pods) && Distinct(list) && HasCurrentBatch(ctx)
    ensures LowBeforeHigh(ctx, pods, list) <==> LowBehind(ctx, pods, list)
  {
    hide IsPatched, KindOf, LoosePods, Missing, Remaining;
    var loose, due := LoosePods(ctx, pods, list), Missing(Remaining(ctx, pods, list));
    if LowBeforeHigh(ctx, pods, list) {
      var low: nat, high: nat :|
        && LooseOf(ctx, pods, list, low, Low) && LooseOf(ctx, pods, list, high, High)
        && IsPatched(ctx, pods, list, low) && !IsPatched(ctx, pods, list, high);
      var j :| 0 <= j < |loose| && loose[j] == low;
      var i :| 0 <= i < |loose| && loose[i] == high;
      PatchedAreLast(ctx, pods, list, i);
      PatchedAreLast(ctx, pods, list, j);
    }
    if LowBehind(ctx, pods, list) {
      var i, j :| 0 <= i < |loose| - due <= j < |loose|
        && KindOf(false, ctx, pods[loose[i]]).High? && KindOf(false, ctx, pods[loose[j]]).Low?;
      PatchedAreLast(ctx, pods, list, i);
      PatchedAreLast(ctx, pods, list, j);
      assert LooseOf(ctx, pods, list, loose[j], Low) && LooseOf(ctx, pods, list, loose[i], High);
    }
  }

  /** The filter keeps only pods of the three kinds it lists. */
  ghost predicate NoneOutdated(ctx: Context, pods: seq<Pod>, list: seq<nat>)
    requires Within(list, pods)
  {
    forall x :: x in list ==> !KindOf(false, ctx, pods[x]).Outdated?
  }

  lemma {:induction false} EndsOfLoose(ctx: Context, pods: seq<Pod>, list: seq<nat>)
    requires Within(list, pods) && HighFirst(ctx, pods, list) && NoneOutdated(ctx, pods, list)
    requires SomeLoose(ctx, pods, list, High) && SomeLoose(ctx, pods, list, Low)
    ensures var loose := LoosePods(ctx, pods, list);
      && |loose| > 0 && KindOf(false, ctx, pods[loose[0]]).High? && KindOf(false, ctx, pods[loose[|loose| - 1]]).Low?
  {
    LooseHighFirst(ctx, pods, list);
    LooseMembers(ctx, pods, list);
    hide LoosePods, IsLabelled, IsUpdated;
    var loose := LoosePods(ctx, pods, list);
    var high: nat :| LooseOf(ctx, pods, list, high, High);
    var low: nat :| LooseOf(ctx, pods, list, low, Low);
    var i :| 0 <= i < |loose| && loose[i] == high;
    var j :| 0 <= j < |loose| && loose[j] == low;
    assert loose[0] in loose && loose[|loose| - 1] in loose;
  }

  lemma {:induction false} LowFirstInList(ctx: Context, pods: seq<Pod>, list: seq<nat>)
    requires Within(list, pods) && Distinct(list) && HasCurrentBatch(ctx)
    requires HighFirst(ctx, pods, list) && NoneOutdated(ctx, pods, list)
    ensures LowBeforeHigh(ctx, pods, list) <==>
      && 0 < Missing(Remaining(ctx, pods, list)) < |LoosePods(ctx, pods, list)|
      && SomeLoose(ctx, pods, list, High) && SomeLoose(ctx, pods, list, Low)
  {
    LowFirstByPlace(ctx, pods, list);
    hide LowBeforeHigh, IsPatched, KindOf, LoosePods, Missing, Remaining;
    var loose, due := LoosePods(ctx, pods, list), Missing(Remaining(ctx, pods, list));
    if LowBehind(ctx, pods, list) {
      var i, j :| 0 <= i < |loose| - due <= j < |loose|
        && KindOf(false, ctx, pods[loose[i]]).High? && KindOf(false, ctx, pods[loose[j]]).Low?;
      assert LooseOf(ctx, pods, list, loose[j], Low) && LooseOf(ctx, pods, list, loose[i], High);
    }
    if 0 < due < |loose| && SomeLoose(ctx, pods, list, High) && SomeLoose(ctx, pods, list, Low) {
      EndsOfLoose(ctx, pods, list);
      assert 0 <= 0 < |loose| - due <= |loose| - 1 < |loose|;
    }
  }

  lemma {:induction false} FilteredNotOutdated(ctx: Context, pods: seq<Pod>, list: seq<nat>)
    requires Within(list, pods)
    requires Needs(false, ctx, |Select(false, ctx, pods, list, Low)|) > 0
    ensures Within(Filtered(false, ctx, pods, list), pods) && NoneOutdated(ctx, pods, Filtered(false, ctx, pods, list))
  {
    hide KindOf, Select, Needs;
    SelectMembers(false, ctx, pods, list, High);
    SelectMembers(false, ctx, pods, list, Low);
    SelectMembers(false, ctx, pods, list, Terminating);
  }

  /** Against its description the filter and the patcher together label pods that need
      no update before pods that were really updated. When an update is still needed:
      exactly if some but not all of the loose pods kept are due a patch, and pods of
      both kinds are among them. When none is, the list is kept in its own order, and
      it depends on the places. */
  lemma {:induction false} LowPriorityFirstExactlyWhen(ctx: Context, pods: seq<Pod>)
    requires HasCurrentBatch(ctx)
    ensures var all := Everyone(|pods|);
      var list := Filtered(false, ctx, pods, all);
      && Within(list, pods)
      && (LowBeforeHigh(ctx, pods, list) <==>
            if Needs(false, ctx, |Select(false, ctx, pods, all, Low)|) > 0 then
              && 0 < Missing(Remaining(ctx, pods, list)) < |LoosePods(ctx, pods, list)|
              && SomeLoose(ctx, pods, list, High) && SomeLoose(ctx, pods, list, Low)
            else LowBehind(ctx, pods, list))
  {
    hide Filtered, Select, Needs, LowBeforeHigh, LowBehind, SomeLoose, Missing, Remaining, LoosePods;
    var all := Everyone(|pods|);
    FilteredDistinct(false, ctx, pods, all);
    var list := Filtered(false, ctx, pods, all);
    if Needs(false, ctx, |Select(false, ctx, pods, all, Low)|) > 0 {
      FilteredHighFirst(ctx, pods, all);
      FilteredNotOutdated(ctx, pods, all);
      LowFirstInList(ctx, pods, list);
    } else {
      LowFirstByPlace(ctx, pods, list);
    }
  }

  /* An input: five pods were really updated where four are needed, two more need no
     update, and six labels are planned. */

  const UPDATED := Pod(0, false, "v2", "", NotOwned, "", None, "")
  const KEPT := UPDATED.(noNeedUpdate := "id")
  const SEVEN := [UPDATED, UPDATED, UPDATED, UPDATED, UPDATED, KEPT, KEPT]
  const SIX_OF_SEVEN := Context("id", "v2", [Int(6)], 0, 7, 6, 6, Int(0))

  lemma KindsOfSeven()
    ensures KindOf(false, SIX_OF_SEVEN, UPDATED) == High && KindOf(false, SIX_OF_SEVEN, KEPT) == Low
    ensures MarkOf(SIX_OF_SEVEN, UPDATED).Loose? && MarkOf(SIX_OF_SEVEN, KEPT).Loose?
  {
    assert "v2"[0..] == "v2";
  }

  lemma {:induction false} SelectSeven(kind: Kind, n: nat)
    requires n <= 7
    ensures var list := Everyone(7)[..n];
      && Within(list, SEVEN)
      && Select(false, SIX_OF_SEVEN, SEVEN, list, kind)
         == match kind
            case High => list[..Min(n, 5)]
            case Low => if n <= 5 then [] else list[5..]
            case _ => []
  {
    KindsOfSeven();
    hide KindOf;
    if n > 0 {
      SelectSeven(kind, n - 1);
      assert Everyone(7)[..n][..n - 1] == Everyone(7)[..n - 1];
    }
  }

  lemma {:induction false} AllLoose(ctx: Context, pods: seq<Pod>, list: seq<nat>, id: int)
    requires Within(list, pods) && forall x :: x in list ==> MarkOf(ctx, pods[x]).Loose?
    ensures LoosePods(ctx, pods, list) == list && Carrying(ctx, pods, list, id) == 0
  {
    hide MarkOf;
    if list != [] {
      assert list[|list| - 1] in list && forall x :: x in list[..|list| - 1] ==> x in list;
      AllLoose(ctx, pods, list[..|list| - 1], id);
    }
  }

  lemma LooseOfSeven()
    ensures Within(Everyone(7), SEVEN) && LoosePods(SIX_OF_SEVEN, SEVEN, Everyone(7)) == Everyone(7)
    ensures Carrying(SIX_OF_SEVEN, SEVEN, Everyone(7), 1) == 0
  {
    KindsOfSeven();
    hide MarkOf, LoosePods, Carrying;
    assert forall k :: 0 <= k < 7 ==> SEVEN[k] == UPDATED || SEVEN[k] == KEPT;
    AllLoose(SIX_OF_SEVEN, SEVEN, Everyone(7), 1);
  }

  lemma KeptOfSeven()
    ensures Within(Everyone(7), SEVEN) && Filtered(false, SIX_OF_SEVEN, SEVEN, Everyone(7)) == Everyone(7)
  {
    assert Everyone(7)[..7] == Everyone(7);
    SelectSeven(High, 7);
    SelectSeven(Low, 7);
    SelectSeven(Terminating, 7);
    hide Select, Everyone;
    assert Everyone(7)[5..][..2] == Everyone(7)[5..];
    assert Everyone(7)[..5] + Everyone(7)[5..] + [] == Everyone(7);
  }

  lemma DueOfSeven()
    ensures Within(Everyone(7), SEVEN) && HasCurrentBatch(SIX_OF_SEVEN)
    ensures Missing(Remaining(SIX_OF_SEVEN, SEVEN, Everyone(7))) == 6
    ensures LoosePods(SIX_OF_SEVEN, SEVEN, Everyone(7)) == Everyone(7)
  {
    LooseOfSeven();
    hide LoosePods, Carrying;
    var plan := Remaining(SIX_OF_SEVEN, SEVEN, Everyone(7));
    assert plan == [6];
    assert [6][..0] == [];
    assert Missing([]) == 0;
  }

  /** Both pods that need no update are patched, and one that was updated is not. */
  lemma LowPriorityFirst()
    ensures var list := Filtered(false, SIX_OF_SEVEN, SEVEN, Everyone(7));
      && Within(list, SEVEN) && HasCurrentBatch(SIX_OF_SEVEN)
      && IsPatched(SIX_OF_SEVEN, SEVEN, list, 5) && IsPatched(SIX_OF_SEVEN, SEVEN, list, 6)
      && !IsPatched(SIX_OF_SEVEN, SEVEN, list, 0)
      && KindOf(false, SIX_OF_SEVEN, SEVEN[0]) == High && KindOf(false, SIX_OF_SEVEN, SEVEN[5]) == Low == KindOf(false, SIX_OF_SEVEN, SEVEN[6])
  {
    hide Filtered, Missing, Remaining, LoosePods, IsPatched, KindOf, MarkOf;
    KindsOfSeven();
    KeptOfSeven();
    DueOfSeven();
    PatchedAreLast(SIX_OF_SEVEN, SEVEN, Everyone(7), 0);
    PatchedAreLast(SIX_OF_SEVEN, SEVEN, Everyone(7), 5);
    PatchedAreLast(SIX_OF_SEVEN, SEVEN, Everyone(7), 6);
  }
}
