/** Which of its three ways `scale` goes, and what each leaves of the sets. */
module ScalingBranches {
  import opened Arithmetic
  import opened Sorting
  import opened ReplicaSets
  import opened RollingUpdate
  import opened RollingProperties
  import opened ProportionalScaling
  import RollingConvergence
  import RollingOrder

  /** No set but the one at `k` has pods. */
  predicate NoOthers(sets: seq<ReplicaSet>, k: nat) {
    forall i :: 0 <= i < |sets| && i != k ==> sets[i].spec == 0
  }

  lemma {:induction false} OnlyOneActive(sets: seq<ReplicaSet>, sets': seq<ReplicaSet>, k: nat)
    requires k < |sets| && NoOthers(sets, k) && multiset(sets') == multiset(sets)
    ensures Active(sets') == if sets[k].spec > 0 then [sets[k]] else []
  {
    hide Active, Idle, Sum;
    var active := Active(sets');
    SameMembers(sets', sets);
    ActiveMembers(sets');
    ActiveIdleSplit(sets');
    forall r | r in active
      ensures r == sets[k] && r.spec > 0
    {
      assert r in active + Idle(sets');
    }
    SumPermute(SpecOf, sets', sets);
    NoOthersSize(sets, k);
    SumActive(SpecOf, sets');
    if |active| > 1 {
      assert active[0] in active && active[1] in active;
      FirstTwo(active);
    } else if |active| == 1 {
      assert active[0] in active;
    } else {
      EmptySize(active);
    }
  }

  lemma {:induction false} FirstTwo(rs: seq<ReplicaSet>)
    requires |rs| > 1
    ensures Size(rs) >= rs[0].spec + rs[1].spec
  {
    assert rs == [rs[0]] + ([rs[1]] + rs[2..]);
    SumConcat(SpecOf, [rs[0]], [rs[1]] + rs[2..]);
    SumConcat(SpecOf, [rs[1]], rs[2..]);
    SumSingle(rs[0]);
    SumSingle(rs[1]);
  }

  lemma {:induction false} NoOthersSize(sets: seq<ReplicaSet>, k: nat)
    requires k < |sets| && NoOthers(sets, k)
    ensures Size(sets) == sets[k].spec
  {
    SumExtract(SpecOf, sets, k);
    var rest := sets[..k] + sets[k + 1..];
    forall r | r in rest
      ensures r.spec == 0
    {
    }
    AllEmpty(rest);
  }

  lemma {:induction false} AllEmpty(rs: seq<ReplicaSet>)
    requires forall r :: r in rs ==> r.spec == 0
    ensures Size(rs) == 0
  {
    if rs != [] {
      assert rs[0] in rs;
      AllEmpty(rs[1..]);
    }
  }

  /** Without two active sets only one set is scaled, and it to the whole size: the active
      one; and with none active the new set, or where there is none a newest old one. */
  lemma {:induction false} OnlyOneIsScaled(newRS: Option<ReplicaSet>, olds: seq<ReplicaSet>, s: Scaling, k: nat)
      returns (m: nat)
    requires var sets := olds + AsList(newRS); k < |sets| && NoOthers(sets, k)
    ensures var sets, w := olds + AsList(newRS), Scale(newRS, olds, s, {});
      && !w.failed && m < |sets| == |w.sets|
      && w.sets[m].name == sets[m].name && w.sets[m].spec == s.q.replicas
      && (forall i :: 0 <= i < |sets| && i != m ==> w.sets[i] == sets[i] && sets[i].spec == 0)
      && (sets[m].spec == 0 ==>
            if newRS.Some? then sets[m] == newRS.value else forall r :: r in sets ==> r.created <= sets[m].created)
  {
    hide Active, Idle, Sort, Sum, Cleaned, Distribute, StringBefore;
    var sets := olds + AsList(newRS);
    var newestFirst := Sort(CreatedAfter, olds);
    SortPermutes(CreatedAfter, olds);
    assert multiset(newestFirst + AsList(newRS)) == multiset(sets);
    OnlyOneActive(sets, newestFirst + AsList(newRS), k);
    var only := FindActiveOrLatest(newRS, olds);
    assert only.Some?;
    m := Position(sets, only.value);
    if sets[k].spec > 0 {
      assert sets[m] == sets[k];
      assert m == k;
    } else if newRS.None? {
      NewestFirst(olds);
      assert sets == olds;
    }
  }

  lemma {:induction false} NewestFirst(olds: seq<ReplicaSet>)
    requires olds != []
    ensures forall r :: r in olds ==> r.created <= Sort(CreatedAfter, olds)[0].created
  {
    CreatedBeforeOrders();
    SortSorted(CreatedAfter, olds);
    SortKeepsMembers(CreatedAfter, olds);
    hide Sort, StringBefore;
    var sorted := Sort(CreatedAfter, olds);
    forall r | r in olds
      ensures r.created <= sorted[0].created
    {
      assert r in sorted;
      var i :| 0 <= i < |sorted| && sorted[i] == r;
      assert i > 0 ==> !CreatedAfter(sorted[i], sorted[0]);
    }
  }

  /** Where one set is scaled alone, no other one has pods. */
  lemma {:induction false} OnlyActiveMeans(newRS: Option<ReplicaSet>, olds: seq<ReplicaSet>)
    requires FindActiveOrLatest(newRS, olds).Some?
    ensures var sets := olds + AsList(newRS);
      NoOthers(sets, Position(sets, FindActiveOrLatest(newRS, olds).value))
  {
    hide FindActiveOrLatest, Sum;
    var sets := olds + AsList(newRS);
    OnlyHoldsAll(newRS, olds);
    var k := Position(sets, FindActiveOrLatest(newRS, olds).value);
    SumExtract(SpecOf, sets, k);
    forall i | 0 <= i < |sets| && i != k
      ensures sets[i].spec == 0
    {
      var rest := sets[..k] + sets[k + 1..];
      assert rest[if i < k then i else i - 1] == sets[i];
      MemberOfNothing(rest, sets[i]);
    }
  }

  /** A new set that was last scaled at this size, has it, and is all available, is all that
      is left: every other set is emptied, and the new one stays. */
  lemma {:induction false} SaturatedNewIsLeft(newRS: ReplicaSet, olds: seq<ReplicaSet>, s: Scaling)
    requires newRS.desiredReplicas == Some(s.q.replicas) && newRS.spec == newRS.available == s.q.replicas
    ensures var w := Scale(Some(newRS), olds, s, {});
      && !w.failed && newRS in w.sets
      && forall r :: r in w.sets ==> r == newRS || r.spec == 0
  {
    hide Active, Idle, Sort, Sum, FindActiveOrLatest, Cleaned, Distribute, Write, Zeros;
    var sets := olds + AsList(Some(newRS));
    var only := FindActiveOrLatest(Some(newRS), olds);
    if only.None? {
      var active := Active(olds);
      ZerosTotal(|active|);
      var zeroed := Write(active, Zeros(|active|), s.q, {});
      WriteSizes(active, Zeros(|active|), s.q);
      forall r | r in zeroed.sets + Idle(olds)
        ensures r.spec == 0
      {
        if r in zeroed.sets {
          MemberOfNothing(zeroed.sets, r);
        } else {
          ActiveIdleSplit(olds);
          MemberOfNothing(Idle(olds), r);
        }
      }
    } else {
      OnlyActiveMeans(Some(newRS), olds);
      assert sets[|olds|] == newRS;
      assert Scale(Some(newRS), olds, s, {}).sets[|olds|] == newRS;
    }
  }

  /** The sets in the order in which they come to be distributed over. */
  function Listed(newRS: Option<ReplicaSet>, olds: seq<ReplicaSet>, s: Scaling): seq<ReplicaSet> {
    (if Size(olds + AsList(newRS)) <= s.q.replicas then olds else Sort(CreatedBefore, olds)) + AsList(newRS)
  }

  lemma {:induction false} TwoActive(newRS: Option<ReplicaSet>, olds: seq<ReplicaSet>, i: nat, j: nat)
    requires var sets := olds + AsList(newRS); i < j < |sets| && sets[i].spec > 0 && sets[j].spec > 0
    ensures FindActiveOrLatest(newRS, olds).None?
  {
    if FindActiveOrLatest(newRS, olds).Some? {
      OnlyActiveMeans(newRS, olds);
    }
  }

  /** With two active sets and a new one that is not all available at this size, or was not
      last scaled at it, all active sets are scaled in proportion, none of them alone: in the
      order of their sizes each is written its settled share of what is to be added. */
  lemma {:induction false} OthersAreShared(newRS: Option<ReplicaSet>, olds: seq<ReplicaSet>, s: Scaling, i: nat, j: nat, k: nat)
    requires RollingConvergence.Healthy(olds) && Fits(olds + AsList(newRS), s)
    requires var sets := olds + AsList(newRS); i < j < |sets| && sets[i].spec > 0 && sets[j].spec > 0
    requires newRS.Some? ==>
      var n := newRS.value;
      n.spec != s.q.replicas || n.available != s.q.replicas || n.desiredReplicas != Some(s.q.replicas)
    requires k < |Ordered(Active(Listed(newRS, olds, s)), s.q.replicas - Size(olds + AsList(newRS)))|
    ensures var toAdd := s.q.replicas - Size(olds + AsList(newRS));
      var ordered, w := Ordered(Active(Listed(newRS, olds, s)), toAdd), Scale(newRS, olds, s, {});
      && !w.failed && k < |w.sets|
      && w.sets[k].name == ordered[k].name && w.sets[k].spec == Settled(ordered, s, toAdd)[k]
  {
    hide Sum, Active, Idle, Sort, Settled, FindActiveOrLatest, Cleanup, Fits, Distribute;
    var sets, listed := olds + AsList(newRS), Listed(newRS, olds, s);
    var toAdd := s.q.replicas - Size(sets);
    TwoActive(newRS, olds, i, j);
    SortPermutes(CreatedBefore, olds);
    SortKeepsMembers(CreatedBefore, olds);
    RollingConvergence.CleanupSkipsHealthy(Sort(CreatedBefore, olds), -toAdd, s.q);
    assert multiset(listed) == multiset(sets);
    SumPermute(SpecOf, listed, sets);
    SameMembers(listed, sets);
    FitsSubset(listed, sets, s);
    DistributeWrites(listed, s, toAdd, k);
  }

  /** The order of the shares: larger sets before smaller ones; and among equals newer ones
      before older when growing, and older before newer when shrinking. */
  lemma {:induction false} LargestFirst(rs: seq<ReplicaSet>, toAdd: int, i: nat, j: nat)
    requires toAdd != 0 && i < j < |rs|
    ensures var a, b := Ordered(rs, toAdd)[i], Ordered(rs, toAdd)[j];
      && a.spec >= b.spec
      && (a.spec == b.spec ==> if toAdd > 0 then a.created >= b.created else a.created <= b.created)
  {
    CreatedBeforeOrders();
    assert Orders(LargerOrNewer) && Orders(LargerOrOlder) by {
      hide CreatedBefore;
    }
    SortSorted(LargerOrNewer, rs);
    SortSorted(LargerOrOlder, rs);
    hide Sort, Orders, StringBefore;
    var a, b := Ordered(rs, toAdd)[i], Ordered(rs, toAdd)[j];
    assert if toAdd > 0 then !LargerOrNewer(b, a) else !LargerOrOlder(b, a);
  }

  /* ---- refused patches ---- */

  lemma {:induction false} CleanupComplete(rs: seq<ReplicaSet>, budget: int, q: Quota, broken: set<string>)
    ensures var c := Cleanup(rs, budget, q, broken); c.failed || c == Cleanup(rs, budget, q, {})
  {
    if rs != [] && budget > 0 {
      CleanupComplete(rs[1..], budget, q, broken);
      CleanupComplete(rs[1..], budget - Min(budget, rs[0].spec - rs[0].available), q, broken);
    }
  }

  lemma {:induction false} WriteRefused(rs: seq<ReplicaSet>, sizes: seq<int>, q: Quota, broken: set<string>, r: ReplicaSet)
    requires |rs| == |sizes| && r in rs && r.name in broken
    ensures r in Write(rs, sizes, q, broken).sets
  {
    if r != rs[0] {
      WriteRefused(rs[1..], sizes[1..], q, broken, r);
    }
  }

  lemma {:induction false} WriteComplete(rs: seq<ReplicaSet>, sizes: seq<int>, q: Quota, broken: set<string>)
    requires |rs| == |sizes|
    ensures var w := Write(rs, sizes, q, broken); w.failed || w == Write(rs, sizes, q, {})
  {
    if rs != [] {
      WriteComplete(rs[1..], sizes[1..], q, broken);
    }
  }

  lemma {:induction false} DistributeRefused(sets: seq<ReplicaSet>, s: Scaling, toAdd: int, broken: set<string>, r: ReplicaSet)
    requires r in sets && r.name in broken
    ensures r in Distribute(sets, s, toAdd, broken).sets
  {
    hide Active, Idle, Sort, Settled, Write;
    var ordered := Ordered(Active(sets), toAdd);
    ActiveMembers(sets);
    SameMembers(Active(sets), ordered);
    assert r in Active(sets) + Idle(sets);
    if r in ordered {
      WriteRefused(ordered, Settled(ordered, s, toAdd), s.q, broken, r);
    }
  }

  /** A set whose patch is refused is the same after scaling, whichever way it goes. */
  lemma {:induction false} RefusedStays(newRS: Option<ReplicaSet>, olds: seq<ReplicaSet>, s: Scaling, broken: set<string>, r: ReplicaSet)
    requires r in olds + AsList(newRS) && r.name in broken
    ensures r in Scale(newRS, olds, s, broken).sets
  {
    hide Active, Idle, Sort, Sum, FindActiveOrLatest, Cleanup, Distribute, Write, Zeros;
    var sets := olds + AsList(newRS);
    var only := FindActiveOrLatest(newRS, olds);
    if only.Some? {
      var i :| 0 <= i < |sets| && sets[i] == r;
      if only.value.name !in broken {
        assert i != Position(sets, only.value);
        assert sets[Position(sets, only.value) := Resized(only.value, s.q.replicas, s.q)][i] == r;
      }
    } else if IsSaturated(newRS, s.q) {
      ActiveMembers(olds);
      if r in Active(olds) {
        WriteRefused(Active(olds), Zeros(|Active(olds)|), s.q, broken, r);
      } else if r in olds {
        assert r in Active(olds) + Idle(olds);
      }
    } else {
      var toAdd := s.q.replicas - Size(sets);
      var (cleaned, left) := Cleaned(newRS, olds, s.q, broken);
      SortKeepsMembers(CreatedBefore, olds);
      if toAdd < 0 && r in olds {
        RollingOrder.CleanupRefused(Sort(CreatedBefore, olds), -toAdd, s.q, broken, r);
      }
      assert r in cleaned.sets;
      DistributeRefused(cleaned.sets, s, left, broken, r);
    }
  }

  lemma {:induction false} DistributeComplete(sets: seq<ReplicaSet>, s: Scaling, toAdd: int, broken: set<string>)
    ensures var w := Distribute(sets, s, toAdd, broken); w.failed || w == Distribute(sets, s, toAdd, {})
  {
    hide Active, Idle, Settled, Write, Ordered;
    var ordered := Ordered(Active(sets), toAdd);
    if ordered != [] {
      WriteComplete(ordered, Settled(ordered, s, toAdd), s.q, broken);
    }
  }

  lemma {:induction false} CleanedComplete(newRS: Option<ReplicaSet>, olds: seq<ReplicaSet>, q: Quota, broken: set<string>)
    ensures var c := Cleaned(newRS, olds, q, broken); c.0.failed || c == Cleaned(newRS, olds, q, {})
  {
    hide Sort, Sum, Cleanup;
    CleanupComplete(Sort(CreatedBefore, olds), -(q.replicas - Size(olds + AsList(newRS))), q, broken);
  }

  /** Scaling that reports no failure has done all it would have done without any refusal. */
  lemma {:induction false} UnfailedIsComplete(newRS: Option<ReplicaSet>, olds: seq<ReplicaSet>, s: Scaling, broken: set<string>)
    ensures var w := Scale(newRS, olds, s, broken); w.failed || w == Scale(newRS, olds, s, {})
  {
    hide Active, Idle, FindActiveOrLatest, IsSaturated, Cleaned, Distribute, Write, Zeros, AsList;
    WriteComplete(Active(olds), Zeros(|Active(olds)|), s.q, broken);
    CleanedComplete(newRS, olds, s.q, broken);
    var (cleaned, left) := Cleaned(newRS, olds, s.q, broken);
    DistributeComplete(cleaned.sets, s, left, broken);
  }
}
