/** Proportional scaling of a deployment whose size changed in mid-rollout
    (`scale` in sync.go). Sizes are conserved: after it the sets hold `replicas`
    pods, unless rounding drives the largest set below zero. */
module ProportionalScaling {
  import opened Arithmetic
  import opened Sorting
  import opened ReplicaSets
  import opened RollingUpdate
  import opened RollingProperties
  import opened RollingController
  import RollingConvergence

  /** What the proportions depend on; `maxSize` is size plus surge. */
  datatype Scaling = Scaling(q: Quota, statusReplicas: int)

  /** The size a set had its share of: the annotation, or the reported size. */
  function AnnotatedReplicas(r: ReplicaSet, s: Scaling): int {
    if r.maxReplicas.Some? then r.maxReplicas.value else s.statusReplicas
  }

  /** `getReplicaSetFraction`. The product is computed in 32 bits. Without a
      positive annotated size the source divides by zero or worse, and the model
      says nothing: any fraction will do below. */
  function Fraction(r: ReplicaSet, s: Scaling): int {
    if s.q.replicas == 0 then 0 - r.spec
    else
      var annotated := AnnotatedReplicas(r, s);
      if annotated <= 0 then 0
      else RoundDiv(Wrap32(r.spec * (s.q.replicas + s.q.surge)), annotated) - r.spec
  }

  /** `GetProportion`: the fraction, held within what is left to add. */
  function Proportion(r: ReplicaSet, s: Scaling, toAdd: int, added: int): int {
    if r.spec == 0 || toAdd == 0 || toAdd == added then 0
    else if toAdd > 0 then Min(Fraction(r, s), toAdd - added)
    else Max(Fraction(r, s), toAdd - added)
  }

  /** The sizes estimated for a sorted list, and how much they add in all. */
  function Sizes(rs: seq<ReplicaSet>, s: Scaling, toAdd: int, added: int): (r: (seq<int>, int))
    ensures |r.0| == |rs|
  {
    if rs == [] then ([], added)
    else
      var p := Proportion(rs[0], s, toAdd, added);
      var rest := Sizes(rs[1..], s, toAdd, added + p);
      ([rs[0].spec + p] + rest.0, rest.1)
  }

  function Total(sizes: seq<int>): int {
    if sizes == [] then 0 else sizes[0] + Total(sizes[1..])
  }

  /** The leftover goes to the first, the largest, set; never below zero. */
  function Settled(rs: seq<ReplicaSet>, s: Scaling, toAdd: int): (sizes: seq<int>)
    requires rs != []
    ensures |sizes| == |rs|
  {
    var (sizes, added) := Sizes(rs, s, toAdd, 0);
    if toAdd == 0 then sizes else [Max(sizes[0] + toAdd - added, 0)] + sizes[1..]
  }

  /** Where fractions matter: the products fit 32 bits, and every set knows a
      positive size it had a share of. */
  ghost predicate Fits(rs: seq<ReplicaSet>, s: Scaling) {
    forall r :: r in rs ==> FitsOne(r, s)
  }

  ghost predicate FitsOne(r: ReplicaSet, s: Scaling) {
    s.q.replicas > 0 ==>
      && 0 <= r.spec * (s.q.replicas + s.q.surge) < 0x8000_0000
      && AnnotatedReplicas(r, s) > 0
  }

  lemma {:induction false} FractionKeepsSize(r: ReplicaSet, s: Scaling)
    requires Fits([r], s)
    ensures Fraction(r, s) >= 0 - r.spec
  {
    assert r in [r];
    if s.q.replicas != 0 {
      RoundDivBounds(r.spec * (s.q.replicas + s.q.surge), AnnotatedReplicas(r, s));
    }
  }

  /** The running count never passes the amount to add, in either direction, and
      together with the sizes it accounts for every pod. */
  lemma {:induction false} SizesAccount(rs: seq<ReplicaSet>, s: Scaling, toAdd: int, added: int)
    requires toAdd >= 0 ==> added <= toAdd
    requires toAdd <= 0 ==> added >= toAdd
    ensures var (sizes, all) := Sizes(rs, s, toAdd, added);
      && Total(sizes) == Size(rs) + all - added
      && (toAdd >= 0 ==> all <= toAdd)
      && (toAdd <= 0 ==> all >= toAdd)
  {
    hide Fraction;
    if rs != [] {
      SizesAccount(rs[1..], s, toAdd, added + Proportion(rs[0], s, toAdd, added));
    }
  }

  lemma {:induction false} SizesNotNegative(rs: seq<ReplicaSet>, s: Scaling, toAdd: int, added: int)
    requires Fits(rs, s)
    requires toAdd >= 0 ==> added <= toAdd
    requires toAdd <= 0 ==> added >= toAdd
    ensures forall i :: 0 <= i < |rs| ==> Sizes(rs, s, toAdd, added).0[i] >= 0
  {
    hide Fraction;
    if rs != [] {
      assert rs[0] in rs && Fits(rs[1..], s);
      FractionKeepsSize(rs[0], s);
      SizesNotNegative(rs[1..], s, toAdd, added + Proportion(rs[0], s, toAdd, added));
    }
  }

  lemma {:induction false} TotalNotNegative(sizes: seq<int>)
    requires forall i :: 0 <= i < |sizes| ==> sizes[i] >= 0
    ensures Total(sizes) >= 0
    ensures (forall i :: 0 <= i < |sizes| ==> sizes[i] == 0) <==> Total(sizes) == 0
  {
    if sizes != [] {
      TotalNotNegative(sizes[1..]);
      assert forall i :: 0 <= i < |sizes[1..]| ==> sizes[1..][i] == sizes[i + 1];
    }
  }

  /** The size a set had its share of: what its annotation says, or else what the
      deployment reports. */
  predicate SharedIn(r: ReplicaSet, s: Scaling, total: int) {
    match r.maxReplicas
    case Some(annotated) => total == annotated
    case None => total == s.statusReplicas
  }

  /** A set of `r.spec` pods out of `total` is estimated at `z` when `before` of the pods
      to add were given out already. If all were, it keeps its size. Otherwise it gets the
      share of the new total that it had of the old, to the nearest pod; unless that would
      take more than what is left, and then what is left. */
  predicate FairShare(r: ReplicaSet, s: Scaling, total: int, toAdd: int, before: int, z: int) {
    var whole := r.spec * (s.q.replicas + s.q.surge);
    if before == toAdd then z == r.spec
    else if before + z - r.spec != toAdd then IsNearest(z, whole, total)
    else if toAdd > 0 then 2 * (z * total - whole) <= total
    else -total < 2 * (z * total - whole)
  }

  lemma {:induction false} NearestIsMonotone(z: int, z': int, n: int, d: int)
    requires d > 0 && IsNearest(z', n, d)
    ensures z <= z' ==> 2 * (z * d - n) <= d
    ensures z >= z' ==> -d < 2 * (z * d - n)
  {
    NegativeProduct(z - z', d);
    NegativeProduct(z' - z, d);
    assert (z - z') * d == z * d - z' * d;
    assert (z' - z) * d == z' * d - z * d;
  }

  lemma {:induction false} ProportionIsFair(r: ReplicaSet, s: Scaling, total: int, toAdd: int, before: int)
    requires FitsOne(r, s) && s.q.replicas > 0 && SharedIn(r, s, total) && toAdd != 0
    requires if toAdd > 0 then before <= toAdd else before >= toAdd
    ensures FairShare(r, s, total, toAdd, before, r.spec + Proportion(r, s, toAdd, before))
  {
    var whole := r.spec * (s.q.replicas + s.q.surge);
    RoundDivNearest(whole, total);
    NearestIsMonotone(r.spec + Proportion(r, s, toAdd, before), RoundDiv(whole, total), whole, total);
    hide RoundDiv;
  }

  lemma {:induction false} TotalOfPrefix(sizes: seq<int>, i: nat)
    requires 0 < i <= |sizes|
    ensures Total(sizes[..i]) == sizes[0] + Total(sizes[1..][..i - 1])
  {
    assert sizes[..i][1..] == sizes[1..][..i - 1];
  }

  lemma {:induction false} SizesAreFair(rs: seq<ReplicaSet>, s: Scaling, toAdd: int, added: int, i: nat, total: int)
    requires i < |rs| && Fits(rs, s) && s.q.replicas > 0 && SharedIn(rs[i], s, total) && toAdd != 0
    requires if toAdd > 0 then added <= toAdd else added >= toAdd
    ensures var sizes := Sizes(rs, s, toAdd, added).0;
      FairShare(rs[i], s, total, toAdd, added + Total(sizes[..i]) - Size(rs[..i]), sizes[i])
  {
    hide FairShare, Proportion, Fraction, SharedIn, FitsOne;
    assert rs[0] in rs && Fits(rs[1..], s);
    var p := Proportion(rs[0], s, toAdd, added);
    if i == 0 {
      assert rs[..0] == [];
      ProportionIsFair(rs[0], s, total, toAdd, added);
    } else {
      ProportionWithin(rs[0], s, toAdd, added);
      SizesAreFair(rs[1..], s, toAdd, added + p, i - 1, total);
      TotalOfPrefix(Sizes(rs, s, toAdd, added).0, i);
      SizeOfPrefix(rs, i);
    }
  }

  lemma {:induction false} ProportionWithin(r: ReplicaSet, s: Scaling, toAdd: int, added: int)
    requires if toAdd > 0 then added <= toAdd else added >= toAdd
    ensures var after := added + Proportion(r, s, toAdd, added); if toAdd > 0 then after <= toAdd else after >= toAdd
  {
    hide Fraction;
  }

  /** Scaling is proportional, in both directions: going from the largest set on, every
      set is given its fair share of the pods that are left; and the first one differs
      from its share, `first`, only by what is left over in the end, and is not negative. */
  lemma {:induction false} SharesAreFair(rs: seq<ReplicaSet>, s: Scaling, toAdd: int, i: nat, total: int) returns (first: int)
    requires i < |rs| && Fits(rs, s) && s.q.replicas > 0 && SharedIn(rs[i], s, total) && toAdd != 0
    ensures var sizes := Settled(rs, s, toAdd);
      var shares := [first] + sizes[1..];
      && FairShare(rs[i], s, total, toAdd, Total(shares[..i]) - Size(rs[..i]), shares[i])
      && sizes[0] == Max(0, first + toAdd - (Total(shares) - Size(rs)))
  {
    hide FairShare, SharedIn, Fits, Sum, Proportion;
    var (shares, added) := Sizes(rs, s, toAdd, 0);
    first := shares[0];
    SizesAccount(rs, s, toAdd, 0);
    SizesAreFair(rs, s, toAdd, 0, i, total);
    assert [first] + Settled(rs, s, toAdd)[1..] == shares;
  }

  /** Nothing to add leaves every set alone. */
  lemma {:induction false} NothingToShare(rs: seq<ReplicaSet>, s: Scaling, i: nat)
    requires i < |rs|
    ensures Settled(rs, s, 0)[i] == rs[i].spec
  {
    NoSizes(rs, s, i);
  }

  lemma {:induction false} NoSizes(rs: seq<ReplicaSet>, s: Scaling, i: nat)
    requires i < |rs|
    ensures Sizes(rs, s, 0, 0).0[i] == rs[i].spec
  {
    if i > 0 {
      NoSizes(rs[1..], s, i - 1);
    }
  }

  /** Proportional scaling conserves size: the sizes written are not negative and
      sum to the size asked for, exactly when the estimate for the largest set
      plus the leftover is not negative; otherwise to more. Scaling up never
      meets that case. */
  lemma {:induction false} SettledConserves(rs: seq<ReplicaSet>, s: Scaling, toAdd: int)
    requires rs != [] && Fits(rs, s) && Size(rs) + toAdd >= 0
    ensures var sizes := Settled(rs, s, toAdd);
      var (estimates, added) := Sizes(rs, s, toAdd, 0);
      && (forall i :: 0 <= i < |sizes| ==> sizes[i] >= 0)
      && (Total(sizes) == Size(rs) + toAdd <==> estimates[0] + toAdd - added >= 0)
      && Total(sizes) >= Size(rs) + toAdd
      && (toAdd >= 0 ==> Total(sizes) == Size(rs) + toAdd)
      && (s.q.replicas == 0 && toAdd == 0 - Size(rs) ==> Total(sizes) == 0)
  {
    hide Sum, Fraction;
    var (estimates, added) := Sizes(rs, s, toAdd, 0);
    SizesAccount(rs, s, toAdd, 0);
    SizesNotNegative(rs, s, toAdd, 0);
    assert estimates == [estimates[0]] + estimates[1..];
    var sizes := Settled(rs, s, toAdd);
    if toAdd != 0 {
      assert sizes[1..] == estimates[1..];
    }
    if s.q.replicas == 0 && toAdd == 0 - Size(rs) {
      EmptyingSizes(rs, s, toAdd, 0);
      TotalNotNegative(estimates);
    }
  }

  /** Scaling to zero gives every set its whole size to lose. */
  lemma {:induction false} EmptyingSizes(rs: seq<ReplicaSet>, s: Scaling, toAdd: int, added: int)
    requires s.q.replicas == 0 && toAdd - added == 0 - Size(rs) && toAdd <= added <= 0
    ensures var (sizes, all) := Sizes(rs, s, toAdd, added);
      all == toAdd && forall i :: 0 <= i < |sizes| ==> sizes[i] == 0
  {
    if rs != [] {
      var p := Proportion(rs[0], s, toAdd, added);
      if Size(rs[1..]) == 0 && rs[0].spec == 0 {
        EmptyingSizes(rs[1..], s, toAdd, added);
      } else {
        assert p == 0 - rs[0].spec;
        EmptyingSizes(rs[1..], s, toAdd, added + p);
      }
    }
  }

  /* ---- the whole of `scale` ---- */

  predicate CreatedAfter(a: ReplicaSet, b: ReplicaSet) {
    CreatedBefore(b, a)
  }

  function AsList(r: Option<ReplicaSet>): seq<ReplicaSet> {
    if r.Some? then [r.value] else []
  }

  /** `FindActiveOrLatest`: the only active set, or the newest if none is. */
  function FindActiveOrLatest(newRS: Option<ReplicaSet>, olds: seq<ReplicaSet>): (r: Option<ReplicaSet>)
    ensures r.Some? ==> r.value in olds + AsList(newRS)
  {
    if newRS.None? && olds == [] then None
    else
      var newestFirst := Sort(CreatedAfter, olds);
      var sets := newestFirst + AsList(newRS);
      var active := Active(sets);
      SortKeepsMembers(CreatedAfter, olds);
      ActiveMembers(sets);
      assert forall x :: x in active ==> x in active + Idle(sets);
      if |active| == 1 then assert active[0] in active; Some(active[0])
      else if |active| > 1 then None
      else if newRS.Some? then newRS
      else assert newestFirst[0] in newestFirst; Some(newestFirst[0])
  }

  /** `IsSaturated`. */
  predicate IsSaturated(newRS: Option<ReplicaSet>, q: Quota) {
    && newRS.Some?
    && newRS.value.desiredReplicas == Some(q.replicas)
    && newRS.value.spec == q.replicas
    && newRS.value.available == q.replicas
  }

  datatype Written = Written(sets: seq<ReplicaSet>, failed: bool)

  /** `scaleReplicaSet` on each set in turn, stopping at the first failure; a set
      that already has its size and annotations is not patched, and the API
      server refuses a negative size. */
  function Write(rs: seq<ReplicaSet>, sizes: seq<int>, q: Quota, broken: set<string>): Written
    requires |rs| == |sizes|
  {
    if rs == [] then Written([], false)
    else if sizes[0] < 0 || (rs[0].name in broken && Resized(rs[0], sizes[0], q) != rs[0]) then Written(rs, true)
    else
      var rest := Write(rs[1..], sizes[1..], q, broken);
      Written([Resized(rs[0], sizes[0], q)] + rest.sets, rest.failed)
  }

  function Zeros(n: nat): (z: seq<int>)
    ensures |z| == n
  {
    if n == 0 then [] else [0] + Zeros(n - 1)
  }

  /** Direction decides the order: growing favours newer sets, shrinking older. */
  function Ordered(rs: seq<ReplicaSet>, toAdd: int): (r: seq<ReplicaSet>)
    ensures multiset(r) == multiset(rs) && |r| == |rs|
  {
    SortPermutes(LargerOrNewer, rs);
    SortPermutes(LargerOrOlder, rs);
    if toAdd > 0 then Sort(LargerOrNewer, rs)
    else if toAdd < 0 then Sort(LargerOrOlder, rs)
    else rs
  }

  /** The proportional branch, on all sets. */
  function Distribute(sets: seq<ReplicaSet>, s: Scaling, toAdd: int, broken: set<string>): Written {
    var ordered := Ordered(Active(sets), toAdd);
    if ordered == [] then Written(sets, false)
    else
      var written := Write(ordered, Settled(ordered, s, toAdd), s.q, broken);
      written.(sets := written.sets + Idle(sets))
  }

  /** `scale`, on the new set, if there is one, and the old ones. */
  function Scale(newRS: Option<ReplicaSet>, olds: seq<ReplicaSet>, s: Scaling, broken: set<string>): Written {
    var q := s.q;
    var sets := olds + AsList(newRS);
    var only := FindActiveOrLatest(newRS, olds);
    if only.Some? then
      if only.value.spec == q.replicas then Written(sets, false)
      else if only.value.name in broken then Written(sets, true)
      else Written(sets[Position(sets, only.value) := Resized(only.value, q.replicas, q)], false)
    else if IsSaturated(newRS, q) then
      var zeroed := Write(Active(olds), Zeros(|Active(olds)|), q, broken);
      zeroed.(sets := zeroed.sets + Idle(olds) + AsList(newRS))
    else
      var (cleaned, toAdd) := Cleaned(newRS, olds, q, broken);
      if cleaned.failed then cleaned else Distribute(cleaned.sets, s, toAdd, broken)
  }

  /** The sets to distribute over, and how much: when shrinking, unavailable pods
      of the old sets are removed first. */
  function Cleaned(newRS: Option<ReplicaSet>, olds: seq<ReplicaSet>, q: Quota, broken: set<string>): (Written, int) {
    var toAdd := q.replicas - Size(olds + AsList(newRS));
    if toAdd >= 0 then (Written(olds + AsList(newRS), false), toAdd)
    else
      var c := Cleanup(Sort(CreatedBefore, olds), -toAdd, q, broken);
      (Written(c.sets + AsList(newRS), c.failed), toAdd + c.removed)
  }

  lemma {:induction false} WriteSizes(rs: seq<ReplicaSet>, sizes: seq<int>, q: Quota)
    requires |rs| == |sizes| && forall i :: 0 <= i < |sizes| ==> sizes[i] >= 0
    ensures var w := Write(rs, sizes, q, {}); !w.failed && Size(w.sets) == Total(sizes)
  {
    if rs != [] {
      assert forall i :: 0 <= i < |sizes[1..]| ==> sizes[1..][i] == sizes[i + 1];
      WriteSizes(rs[1..], sizes[1..], q);
    }
  }

  lemma {:induction false} WriteEach(rs: seq<ReplicaSet>, sizes: seq<int>, q: Quota, i: nat)
    requires |rs| == |sizes| && i < |rs| && forall k :: 0 <= k < |sizes| ==> sizes[k] >= 0
    ensures |Write(rs, sizes, q, {}).sets| == |rs|
    ensures Write(rs, sizes, q, {}).sets[i] == Resized(rs[i], sizes[i], q)
  {
    assert forall k :: 0 <= k < |sizes[1..]| ==> sizes[1..][k] == sizes[k + 1];
    if |rs| > 1 {
      WriteEach(rs[1..], sizes[1..], q, if i > 0 then i - 1 else 0);
    }
  }

  lemma {:induction false} FitsSubset(rs: seq<ReplicaSet>, sets: seq<ReplicaSet>, s: Scaling)
    requires Fits(sets, s) && forall r :: r in rs ==> r in sets
    ensures Fits(rs, s)
  {
  }

  /** What the proportional branch writes: the settled size of each active set, from the
      largest on. */
  lemma {:induction false} DistributeWrites(sets: seq<ReplicaSet>, s: Scaling, toAdd: int, i: nat)
    requires Fits(sets, s) && toAdd == s.q.replicas - Size(sets)
    requires i < |Ordered(Active(sets), toAdd)|
    ensures var ordered, w := Ordered(Active(sets), toAdd), Distribute(sets, s, toAdd, {});
      && !w.failed && i < |w.sets|
      && w.sets[i].name == ordered[i].name && w.sets[i].spec == Settled(ordered, s, toAdd)[i]
      && w.sets[i].desiredReplicas == Some(s.q.replicas) && w.sets[i].maxReplicas == Some(s.q.replicas + s.q.surge)
  {
    hide Sum, Active, Idle, Sort, Settled, Sizes, Write, Fits;
    var active, ordered := Active(sets), Ordered(Active(sets), toAdd);
    SumActive(SpecOf, sets);
    ActiveIdleSplit(sets);
    ActiveMembers(sets);
    SameMembers(active, ordered);
    SumPermute(SpecOf, active, ordered);
    assert forall r :: r in active ==> r in active + Idle(sets);
    FitsSubset(ordered, sets, s);
    SettledConserves(ordered, s, toAdd);
    WriteSizes(ordered, Settled(ordered, s, toAdd), s.q);
    WriteEach(ordered, Settled(ordered, s, toAdd), s.q, i);
  }

  /** The proportional branch conserves size. */
  lemma {:induction false} DistributeConserves(sets: seq<ReplicaSet>, s: Scaling, toAdd: int)
    requires Fits(sets, s) && toAdd == s.q.replicas - Size(sets)
    requires Size(sets) > 0
    ensures var w := Distribute(sets, s, toAdd, {});
      var ordered := Ordered(Active(sets), toAdd);
      && !w.failed
      && ordered != []
      && Size(w.sets) >= s.q.replicas
      && (toAdd >= 0 || s.q.replicas == 0 ==> Size(w.sets) == s.q.replicas)
      && (var (estimates, added) := Sizes(ordered, s, toAdd, 0);
          Size(w.sets) == s.q.replicas <==> estimates[0] + toAdd - added >= 0)
  {
    hide Sum, Active, Idle, Sort, Settled, Sizes, Write, Fits;
    var active, idle := Active(sets), Idle(sets);
    var ordered := Ordered(active, toAdd);
    SumActive(SpecOf, sets);
    ActiveIdleSplit(sets);
    SumPermute(SpecOf, ordered, active);
    assert ordered != [] by { EmptySize(ordered); }
    forall r | r in ordered
      ensures r in sets
    {
      assert r in multiset(active);
      ActiveMembers(sets);
      assert r in active + idle;
    }
    FitsSubset(ordered, sets, s);
    SettledConserves(ordered, s, toAdd);
    WriteSizes(ordered, Settled(ordered, s, toAdd), s.q);
    SumConcat(SpecOf, Write(ordered, Settled(ordered, s, toAdd), s.q, {}).sets, idle);
  }

  lemma {:induction false} EmptySize(rs: seq<ReplicaSet>)
    ensures rs == [] ==> Size(rs) == 0
  {
  }

  lemma {:induction false} SmallerFits(r: ReplicaSet, r': ReplicaSet, s: Scaling)
    requires FitsOne(r, s) && r'.spec <= r.spec && s.q.surge >= 0
    requires r'.maxReplicas == r.maxReplicas || r'.maxReplicas == Some(s.q.replicas + s.q.surge)
    ensures FitsOne(r', s)
  {
    var m := s.q.replicas + s.q.surge;
    assert 0 <= r'.spec * m <= r.spec * m by {
      assert (r.spec - r'.spec) * m >= 0;
    }
  }

  lemma {:induction false} CleanupFits(rs: seq<ReplicaSet>, budget: int, s: Scaling, broken: set<string>)
    requires Fits(rs, s) && s.q.surge >= 0
    ensures Fits(Cleanup(rs, budget, s.q, broken).sets, s)
  {
    hide FitsOne;
    if rs != [] && budget > 0 {
      var r := rs[0];
      assert r in rs && Fits(rs[1..], s);
      if r.spec == 0 || r.spec == r.available {
        CleanupFits(rs[1..], budget, s, broken);
      } else if r.available < r.spec && r.name !in broken {
        var k := Min(budget, r.spec - r.available);
        CleanupFits(rs[1..], budget - k, s, broken);
        SmallerFits(r, Resized(r, r.spec - k, s.q), s);
      }
    }
  }

  lemma {:induction false} CleanedEffect(newRS: Option<ReplicaSet>, olds: seq<ReplicaSet>, s: Scaling)
    requires StatusCurrent(olds) && Fits(olds + AsList(newRS), s) && s.q.surge >= 0
    ensures var (cleaned, toAdd) := Cleaned(newRS, olds, s.q, {});
      var before := Size(olds + AsList(newRS));
      && !cleaned.failed
      && Fits(cleaned.sets, s)
      && toAdd == s.q.replicas - Size(cleaned.sets)
      && (if before <= s.q.replicas then Size(cleaned.sets) == before else s.q.replicas <= Size(cleaned.sets) <= before)
  {
    hide Sum, Cleanup, Sort, FitsOne;
    var sets := olds + AsList(newRS);
    var toAdd := s.q.replicas - Size(sets);
    if toAdd < 0 {
      var sorted := Sort(CreatedBefore, olds);
      SortKeepsMembers(CreatedBefore, olds);
      SumSort(SpecOf, CreatedBefore, olds);
      forall r | r in sorted
        ensures FitsOne(r, s)
      {
        assert r in olds + AsList(newRS);
      }
      CleanupFits(sorted, -toAdd, s, {});
      CleanupEffect(sorted, -toAdd, s.q, {});
      SumConcat(SpecOf, olds, AsList(newRS));
      SumConcat(SpecOf, Cleanup(sorted, -toAdd, s.q, {}).sets, AsList(newRS));
      forall r | r in AsList(newRS)
        ensures FitsOne(r, s)
      {
        assert r in olds + AsList(newRS);
      }
    }
  }

  lemma {:induction false} MemberOfNothing(sets: seq<ReplicaSet>, r: ReplicaSet)
    requires r in sets && Size(sets) == 0
    ensures r.spec == 0
  {
    var i :| 0 <= i < |sets| && sets[i] == r;
    SumExtract(SpecOf, sets, i);
  }

  lemma {:induction false} ActiveSize(sets: seq<ReplicaSet>)
    ensures var active := Active(sets);
      && (|active| == 0 ==> Size(sets) == 0)
      && (|active| == 1 ==> Size(sets) == active[0].spec)
      && (|active| > 1 ==> Size(sets) > 0)
  {
    hide Active, Idle;
    SumActive(SpecOf, sets);
    ActiveIdleSplit(sets);
    var active := Active(sets);
    if |active| == 1 {
      assert active == [active[0]];
      SumSingle(active[0]);
    } else if |active| > 1 {
      assert active[0] in active;
    }
  }

  lemma {:induction false} OnlyHoldsAll(newRS: Option<ReplicaSet>, olds: seq<ReplicaSet>)
    ensures var only := FindActiveOrLatest(newRS, olds);
      && (only.Some? ==> Size(olds + AsList(newRS)) == only.value.spec)
      && (only.None? && olds + AsList(newRS) != [] ==> Size(olds + AsList(newRS)) > 0)
  {
    hide Sort, Idle, Active, Sum;
    var sets := Sort(CreatedAfter, olds) + AsList(newRS);
    SumSort(SpecOf, CreatedAfter, olds);
    SumConcat(SpecOf, olds, AsList(newRS));
    SumConcat(SpecOf, Sort(CreatedAfter, olds), AsList(newRS));
    ActiveSize(sets);
    var only := FindActiveOrLatest(newRS, olds);
    if only.Some? && |Active(sets)| == 0 {
      MemberOfNothing(olds + AsList(newRS), only.value);
    }
  }

  lemma {:induction false} SumReplace(sets: seq<ReplicaSet>, i: nat, r: ReplicaSet)
    requires i < |sets|
    ensures Size(sets[i := r]) == Size(sets) - sets[i].spec + r.spec
  {
    SumExtract(SpecOf, sets, i);
    SumExtract(SpecOf, sets[i := r], i);
    assert sets[i := r][..i] + sets[i := r][i + 1..] == sets[..i] + sets[i + 1..];
  }

  lemma {:induction false} ZerosTotal(n: nat)
    ensures Total(Zeros(n)) == 0 && forall i :: 0 <= i < n ==> Zeros(n)[i] == 0
  {
    if n > 0 {
      ZerosTotal(n - 1);
    }
  }

  /** `scale` leaves exactly `replicas` pods asked for when it grows the
      deployment or empties it, and never fewer: whichever of its three ways it
      goes, and however many unavailable pods it removed first. */
  lemma {:induction false} ScaleConserves(newRS: Option<ReplicaSet>, olds: seq<ReplicaSet>, s: Scaling)
    requires newRS.Some? || olds != []
    requires StatusCurrent(olds) && Fits(olds + AsList(newRS), s) && s.q.surge >= 0
    ensures var w := Scale(newRS, olds, s, {});
      && !w.failed
      && Size(w.sets) >= s.q.replicas
      && (Size(olds + AsList(newRS)) <= s.q.replicas || s.q.replicas == 0 ==> Size(w.sets) == s.q.replicas)
  {
    hide Sum, Active, Idle, Sort, Cleaned, Distribute, FindActiveOrLatest, Write, Fits, Zeros;
    var sets := olds + AsList(newRS);
    var only := FindActiveOrLatest(newRS, olds);
    OnlyHoldsAll(newRS, olds);
    if only.Some? {
      SumReplace(sets, Position(sets, only.value), Resized(only.value, s.q.replicas, s.q));
    } else if IsSaturated(newRS, s.q) {
      var active := Active(olds);
      ZerosTotal(|active|);
      WriteSizes(active, Zeros(|active|), s.q);
      ActiveIdleSplit(olds);
      var zeroed := Write(active, Zeros(|active|), s.q, {}).sets;
      SumConcat(SpecOf, zeroed, Idle(olds));
      SumConcat(SpecOf, zeroed + Idle(olds), AsList(newRS));
      SumSingle(newRS.value);
    } else {
      CleanedEffect(newRS, olds, s);
      var (cleaned, toAdd) := Cleaned(newRS, olds, s.q, {});
      if Size(cleaned.sets) > 0 {
        DistributeConserves(cleaned.sets, s, toAdd);
      } else {
        DistributeNothing(cleaned.sets, s, toAdd);
      }
    }
  }

  lemma {:induction false} SumSingle(r: ReplicaSet)
    ensures Size([r]) == r.spec
  {
    assert Sum(SpecOf, [r]) == SpecOf([r][0]) + Sum(SpecOf, [r][1..]);
  }

  lemma {:induction false} DistributeNothing(sets: seq<ReplicaSet>, s: Scaling, toAdd: int)
    requires Size(sets) == 0
    ensures Distribute(sets, s, toAdd, {}) == Written(sets, false)
  {
    hide Sort, Idle;
    SumActive(SpecOf, sets);
    ActiveIdleSplit(sets);
    assert Active(sets) == [];
  }

  /** Shrinking, and exactly when it conserves: the sets to distribute over being
      fixed, the sizes sum to `replicas` if and only if the largest set's estimate
      absorbs the leftover. */
  lemma {:induction false} ShrinkConservesIff(newRS: Option<ReplicaSet>, olds: seq<ReplicaSet>, s: Scaling)
    requires StatusCurrent(olds) && Fits(olds + AsList(newRS), s) && s.q.surge >= 0 && s.q.replicas > 0
    requires FindActiveOrLatest(newRS, olds).None? && !IsSaturated(newRS, s.q)
    requires olds + AsList(newRS) != []
    ensures var (cleaned, toAdd) := Cleaned(newRS, olds, s.q, {});
      var ordered := Ordered(Active(cleaned.sets), toAdd);
      && ordered != []
      && (var (estimates, added) := Sizes(ordered, s, toAdd, 0);
          Size(Scale(newRS, olds, s, {}).sets) == s.q.replicas <==> estimates[0] + toAdd - added >= 0)
  {
    hide Sum, Active, Idle, Sort, Cleaned, Distribute, FindActiveOrLatest, Write, Fits, Sizes;
    OnlyHoldsAll(newRS, olds);
    CleanedEffect(newRS, olds, s);
    var (cleaned, toAdd) := Cleaned(newRS, olds, s.q, {});
    DistributeConserves(cleaned.sets, s, toAdd);
  }

  /* ---- where it does not conserve ---- */

  lemma {:induction false} SizesStep(r: ReplicaSet, rs: seq<ReplicaSet>, s: Scaling, toAdd: int, added: int)
    ensures var p := Proportion(r, s, toAdd, added);
      var rest := Sizes(rs, s, toAdd, added + p);
      Sizes([r] + rs, s, toAdd, added) == ([r.spec + p] + rest.0, rest.1)
  {
    assert ([r] + rs)[1..] == rs;
  }

  /** A set of two pods, all available, last scaled when the deployment had eight. */
  predicate IsPairOfEight(r: ReplicaSet) {
    r.spec == 2 && r.available == 2 && r.desiredReplicas == Some(8) && r.maxReplicas == Some(8)
  }

  /** Each of four such sets keeps one pod by rounding up, and the first cannot give
      back what is left over. */
  lemma {:induction false} PairsKeepOneEach(a: ReplicaSet, b: ReplicaSet, c: ReplicaSet, d: ReplicaSet, s: Scaling)
    requires IsPairOfEight(a) && IsPairOfEight(b) && IsPairOfEight(c) && IsPairOfEight(d)
    requires s.q.replicas == 2 && s.q.surge == 0
    ensures Settled([a] + ([b] + ([c] + ([d] + []))), s, -6) == [0, 1, 1, 1]
  {
    hide Sizes, Fraction;
    PairFraction(a, s);
    PairFraction(b, s);
    PairFraction(c, s);
    PairFraction(d, s);
    EmptySizes(s, -6, -4);
    SizesStep(d, [], s, -6, -3);
    SizesStep(c, [d] + [], s, -6, -2);
    SizesStep(b, [c] + ([d] + []), s, -6, -1);
    SizesStep(a, [b] + ([c] + ([d] + [])), s, -6, 0);
  }

  lemma {:induction false} PairFraction(r: ReplicaSet, s: Scaling)
    requires IsPairOfEight(r) && s.q.replicas == 2 && s.q.surge == 0
    ensures Fraction(r, s) == -1
  {
    assert Wrap32(4) == 4 && RoundDiv(4, 8) == 1;
  }

  lemma {:induction false} AllActive(rs: seq<ReplicaSet>)
    requires forall r :: r in rs ==> r.spec > 0
    ensures Active(rs) == rs && Idle(rs) == []
  {
    if rs != [] {
      AllActive(rs[1..]);
      assert rs == [rs[0]] + rs[1..] && rs[0].spec > 0;
    }
  }

  lemma {:induction false} TotalOfFour(a: int, b: int, c: int, d: int)
    ensures Total([a, b, c, d]) == a + b + c + d
  {
    TotalOfMore(a, [b, c, d]);
    TotalOfMore(b, [c, d]);
    TotalOfMore(c, [d]);
    TotalOfMore(d, []);
    hide Total;
    assert [a, b, c, d] == [a] + [b, c, d] && [b, c, d] == [b] + [c, d] && [c, d] == [c] + [d] && [d] == [d] + [];
  }

  lemma {:induction false} TotalOfMore(first: int, rest: seq<int>)
    ensures Total([first] + rest) == first + Total(rest) && Total([]) == 0
  {
    assert ([first] + rest)[1..] == rest;
  }

  lemma {:induction false} PairsAreHealthy(rs: seq<ReplicaSet>)
    requires forall r :: r in rs ==> IsPairOfEight(r)
    ensures Cleanup(Sort(CreatedBefore, rs), 6, Quota(2, 2, 0, 0), {}) == Drained(Sort(CreatedBefore, rs), 0, false)
  {
    SortKeepsMembers(CreatedBefore, rs);
    RollingConvergence.CleanupSkipsHealthy(Sort(CreatedBefore, rs), 6, Quota(2, 2, 0, 0));
  }

  lemma {:induction false} PairsSize(rs: seq<ReplicaSet>)
    requires forall r :: r in rs ==> IsPairOfEight(r)
    ensures Size(rs) == 2 * |rs|
  {
    if rs != [] {
      PairsSize(rs[1..]);
      assert IsPairOfEight(rs[0]);
      assert Sum(SpecOf, rs) == SpecOf(rs[0]) + Sum(SpecOf, rs[1..]);
    }
  }

  /** Distributing over any four such sets, in any order, leaves three pods. */
  lemma {:induction false} DistributePairs(sets: seq<ReplicaSet>, s: Scaling)
    requires |sets| == 4 && (forall r :: r in sets ==> IsPairOfEight(r)) && s.q.replicas == 2 && s.q.surge == 0
    ensures var w := Distribute(sets, s, -6, {}); !w.failed && Size(w.sets) == 3
  {
    hide Sort, Settled, Write;
    AllActive(sets);
    SortKeepsMembers(LargerOrOlder, sets);
    var ordered := Ordered(Active(sets), -6);
    var a, b, c, d := ordered[0], ordered[1], ordered[2], ordered[3];
    assert ordered == [a] + ([b] + ([c] + ([d] + [])));
    assert a in ordered && b in ordered && c in ordered && d in ordered;
    PairsKeepOneEach(a, b, c, d, s);
    WriteSizes(ordered, Settled(ordered, s, -6), s.q);
    TotalOfFour(0, 1, 1, 1);
    assert Write(ordered, Settled(ordered, s, -6), s.q, {}).sets + [] == Write(ordered, Settled(ordered, s, -6), s.q, {}).sets;
  }

  /** A deployment of eight in four sets of two, scaled to two: three pods remain,
      whatever the names and ages of the sets. */
  lemma {:induction false} RoundingLosesConservation(newRS: ReplicaSet, olds: seq<ReplicaSet>, s: Scaling)
    requires |olds| == 3 && IsPairOfEight(newRS) && forall r :: r in olds ==> IsPairOfEight(r)
    requires s.q == Quota(2, 2, 0, 0)
    ensures var w := Scale(Some(newRS), olds, s, {}); !w.failed && Size(w.sets) == 3
  {
    hide Sort, Cleanup, Distribute;
    var sets := olds + AsList(Some(newRS));
    PairsSize(sets);
    NoneIsOnly(newRS, olds);
    PairsAreHealthy(olds);
    SortKeepsMembers(CreatedBefore, olds);
    DistributePairs(Sort(CreatedBefore, olds) + AsList(Some(newRS)), s);
  }

  lemma {:induction false} NoneIsOnly(newRS: ReplicaSet, olds: seq<ReplicaSet>)
    requires |olds| >= 1 && newRS.spec > 0 && forall r :: r in olds ==> r.spec > 0
    ensures FindActiveOrLatest(Some(newRS), olds).None?
  {
    hide Sort;
    SortKeepsMembers(CreatedAfter, olds);
    AllActive(Sort(CreatedAfter, olds) + [newRS]);
  }

  lemma {:induction false} EmptySizes(s: Scaling, toAdd: int, added: int)
    ensures Sizes([], s, toAdd, added) == ([], added)
  {
  }

  /** In the first band beyond 32 bits the product wraps below zero. The set's share is
      then negative exactly when the wrapped product is half the recorded total or
      more; and the estimate with it, when growing. */
  lemma {:induction false} OverflowGivesNegativeSize(r: ReplicaSet, s: Scaling, toAdd: int, added: int)
    requires s.q.replicas > 0 && AnnotatedReplicas(r, s) > 0
    requires 0x8000_0000 <= r.spec * (s.q.replicas + s.q.surge) < 0x1_0000_0000
    ensures var below := 0x1_0000_0000 - r.spec * (s.q.replicas + s.q.surge);
      && (r.spec + Fraction(r, s) < 0 <==> 2 * below >= AnnotatedReplicas(r, s))
      && (toAdd > 0 && toAdd > added ==>
            (r.spec + Proportion(r, s, toAdd, added) < 0 <==> 2 * below >= AnnotatedReplicas(r, s)))
  {
    var below := 0x1_0000_0000 - r.spec * (s.q.replicas + s.q.surge);
    assert Wrap32(r.spec * (s.q.replicas + s.q.surge)) == -below;
    NegativeRounds(below, AnnotatedReplicas(r, s));
    assert r.spec != 0;
  }

  /** A negative quotient rounds to something negative from one half on. */
  lemma {:induction false} NegativeRounds(x: nat, b: int)
    requires b > 0 && x > 0
    ensures RoundDiv(0 - x, b) <= 0 && (RoundDiv(0 - x, b) < 0 <==> 2 * x >= b)
  {
    var k := (2 * x + b) / (2 * b);
    assert 2 * x + b == k * (2 * b) + (2 * x + b) % (2 * b);
    assert k >= 1 ==> (k - 1) * (2 * b) >= 0;
    NegativeProduct(k, 2 * b);
  }

  /** One such set: 50000 pods, all of the deployment. */
  lemma {:induction false} FiftyThousandOverflow()
    ensures var s := Scaling(Quota(50000, 50000, 0, 1), 50000);
      var r := ReplicaSet("a", 1, None, 50000, 50000, None, Some(50000));
      r.spec + Fraction(r, s) < 0
  {
  }

  lemma {:induction false} SortHeadLargest(less: (ReplicaSet, ReplicaSet) -> bool, rs: seq<ReplicaSet>)
    requires forall a, b :: if less(a, b) then a.spec >= b.spec else b.spec >= a.spec
    requires rs != []
    ensures forall r :: r in rs ==> r.spec <= Sort(less, rs)[0].spec
  {
    if |rs| > 1 {
      SortHeadLargest(less, rs[1..]);
      assert rs == [rs[0]] + rs[1..];
    }
  }

  /** In both directions the leftover goes to a set none is larger than. */
  lemma {:induction false} LeftoverGoesToLargest(rs: seq<ReplicaSet>, toAdd: int)
    requires rs != [] && toAdd != 0
    ensures forall r :: r in rs ==> r.spec <= Ordered(rs, toAdd)[0].spec
  {
    hide Sort, CreatedBefore;
    SortHeadLargest(LargerOrNewer, rs);
    SortHeadLargest(LargerOrOlder, rs);
  }

  lemma NothingToAdd(r: ReplicaSet, s: Scaling)
    ensures Proportion(r, s, 0, 0) == 0
  {
  }

  /** The two loops over the ordered sets: estimate every size under its set's
      name, then give the leftover to the first. */
  method EstimateSizes(allRSs: seq<ReplicaSet>, s: Scaling, toAdd: int) returns (nameToSize: map<string, int>)
    requires allRSs != []
    requires forall i, j :: 0 <= i < j < |allRSs| ==> allRSs[i].name != allRSs[j].name
    ensures forall i :: 0 <= i < |allRSs| ==>
              allRSs[i].name in nameToSize && nameToSize[allRSs[i].name] == Settled(allRSs, s, toAdd)[i]
  {
    hide Fraction, Proportion, Sizes;
    var added := 0;
    nameToSize := map[];
    ghost var done := [];
    ghost var whole := Sizes(allRSs, s, toAdd, 0);
    assert allRSs[0..] == allRSs && [] + whole.0 == whole.0;
    for i := 0 to |allRSs|
      invariant |done| == i
      invariant var rest := Sizes(allRSs[i..], s, toAdd, added); whole == (done + rest.0, rest.1)
      invariant forall j :: 0 <= j < i ==> allRSs[j].name in nameToSize && nameToSize[allRSs[j].name] == done[j]
      invariant toAdd == 0 ==> added == 0
    {
      var rs := allRSs[i];
      assert allRSs[i..] == [rs] + allRSs[i + 1..];
      SizesStep(rs, allRSs[i + 1..], s, toAdd, added);
      ghost var p := Proportion(rs, s, toAdd, added);
      ghost var rest := Sizes(allRSs[i + 1..], s, toAdd, added + p).0;
      assert done + ([rs.spec + p] + rest) == (done + [rs.spec + p]) + rest;
      if toAdd != 0 {
        var proportion := Proportion(rs, s, toAdd, added);
        nameToSize := nameToSize[rs.name := rs.spec + proportion];
        done := done + [rs.spec + proportion];
        added := added + proportion;
      } else {
        NothingToAdd(rs, s);
        nameToSize := nameToSize[rs.name := rs.spec];
        done := done + [rs.spec];
      }
    }
    assert allRSs[|allRSs|..] == [];
    EmptySizes(s, toAdd, added);
    assert done == whole.0;
    if toAdd != 0 {
      var first := allRSs[0].name;
      nameToSize := nameToSize[first := Max(nameToSize[first] + toAdd - added, 0)];
    }
  }
}
