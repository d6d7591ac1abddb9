/** Rewriting a route and restoring it. */
module GatewayProperties {
  import opened Arithmetic
  import opened Gateway

  /** The precondition of every rewrite: the two services differ. */
  predicate TwoServices(c: Config) {
    c.stable != c.canary
  }

  /* ---- references ---- */

  /** `IndexOf` is determined by what it ensures. */
  lemma {:induction false} IndexIs(refs: seq<Ref>, name: string, i: nat)
    requires i <= |refs| && (i < |refs| ==> Names(refs[i], name))
    requires forall k :: 0 <= k < i ==> !Names(refs[k], name)
    ensures IndexOf(refs, name) == i
  {
  }

  lemma {:induction false} SetSame(refs: seq<Ref>, ref: Ref)
    requires ref.isService
    ensures var after := Set(refs, ref);
      Has(after, ref.name) && RefOf(after, ref.name) == ref && IndexOf(after, ref.name) == IndexOf(refs, ref.name)
  {
    IndexIs(Set(refs, ref), ref.name, IndexOf(refs, ref.name));
  }

  lemma {:induction false} SetOther(refs: seq<Ref>, ref: Ref, name: string)
    requires ref.isService && ref.name != name
    ensures var after := Set(refs, ref);
      && Has(after, name) == Has(refs, name)
      && (Has(refs, name) ==> IndexOf(after, name) == IndexOf(refs, name) && RefOf(after, name) == RefOf(refs, name))
  {
    var i := IndexOf(refs, name);
    IndexIs(Set(refs, ref), name, if i < |refs| then i else |Set(refs, ref)|);
  }

  lemma {:induction false} SetTwice(refs: seq<Ref>, a: Ref, b: Ref)
    requires a.isService && b.isService && a.name == b.name
    ensures Set(Set(refs, a), b) == Set(refs, b)
  {
    SetSame(refs, a);
  }

  lemma {:induction false} SetCommutes(refs: seq<Ref>, a: Ref, b: Ref)
    requires a.isService && b.isService && a.name != b.name && Has(refs, b.name)
    ensures Set(Set(refs, a), b) == Set(Set(refs, b), a)
  {
    SetOther(refs, a, b.name);
    SetOther(refs, b, a.name);
    assert IndexOf(refs, a.name) != IndexOf(refs, b.name);
  }

  lemma {:induction false} WithoutSame(refs: seq<Ref>, ref: Ref)
    requires ref.isService
    ensures Without(Set(refs, ref), ref.name) == Without(refs, ref.name)
  {
    SetSame(refs, ref);
  }

  lemma {:induction false} WithoutOther(refs: seq<Ref>, name: string, other: string)
    requires name != other && Has(refs, other)
    ensures var after := Without(refs, name);
      && Has(after, other) && RefOf(after, other) == RefOf(refs, other)
      && IndexOf(after, other) == if IndexOf(refs, name) < IndexOf(refs, other) then IndexOf(refs, other) - 1 else IndexOf(refs, other)
  {
    var i, j := IndexOf(refs, name), IndexOf(refs, other);
    assert i != j;
    var after := Without(refs, name);
    var k := if i < j then j - 1 else j;
    assert after[k] == refs[j];
    IndexIs(after, other, k);
  }

  lemma {:induction false} RemoveUpdated(s: seq<Ref>, i: nat, j: nat, x: Ref)
    requires i < |s| && j < |s| && i != j
    ensures s[j := x][..i] + s[j := x][i + 1..] == (s[..i] + s[i + 1..])[(if i < j then j - 1 else j) := x]
  {
  }

  lemma {:induction false} WithoutSetOther(refs: seq<Ref>, name: string, ref: Ref)
    requires ref.isService && ref.name != name && Has(refs, ref.name)
    ensures Without(Set(refs, ref), name) == Set(Without(refs, name), ref)
  {
    hide IndexOf;
    var i, j := IndexOf(refs, name), IndexOf(refs, ref.name);
    WithoutOther(refs, name, ref.name);
    SetOther(refs, ref, name);
    if i < |refs| {
      RemoveUpdated(refs, i, j, ref);
    }
  }

  /* ---- weights ---- */

  /** Where a rule has the stable service, its weight and that of the canary add up
      to 100; nothing else about the rule changes. */
  lemma {:induction false} WeightsAddUp(c: Config, rule: Rule, weight: int)
    requires TwoServices(c) && Has(rule.refs, c.stable)
    ensures var after := WeightRule(c, rule, weight);
      && Has(after.refs, c.stable) && RefOf(after.refs, c.stable) == RefOf(rule.refs, c.stable).(weight := Some(100 - weight))
      && Has(after.refs, c.canary) && RefOf(after.refs, c.canary).weight == Some(weight)
      && after == rule.(refs := after.refs)
      && |after.refs| == |rule.refs| + (if Has(rule.refs, c.canary) then 0 else 1)
      && forall k :: 0 <= k < |rule.refs| && k != IndexOf(rule.refs, c.stable) && k != IndexOf(rule.refs, c.canary) ==>
           after.refs[k] == rule.refs[k]
  {
    hide Set;
    var stable := RefOf(rule.refs, c.stable);
    var canary := if Has(rule.refs, c.canary) then RefOf(rule.refs, c.canary) else stable.(name := c.canary);
    var s, d := stable.(weight := Some(100 - weight)), canary.(weight := Some(weight));
    SetSame(rule.refs, s);
    SetOther(rule.refs, s, c.canary);
    SetSame(Set(rule.refs, s), d);
    SetOther(Set(rule.refs, s), d, c.stable);
    SetKeeps(rule.refs, s);
    SetKeeps(Set(rule.refs, s), d);
  }

  lemma {:induction false} SetKeeps(refs: seq<Ref>, ref: Ref)
    requires ref.isService
    ensures var after := Set(refs, ref);
      && |after| == |refs| + (if Has(refs, ref.name) then 0 else 1)
      && forall k :: 0 <= k < |refs| && k != IndexOf(refs, ref.name) ==> after[k] == refs[k]
  {
  }

  lemma {:induction false} WeightRuleOverrides(c: Config, rule: Rule, u: int, w: int)
    requires TwoServices(c)
    ensures WeightRule(c, WeightRule(c, rule, u), w) == WeightRule(c, rule, w)
  {
    hide Set;
    if Has(rule.refs, c.stable) {
      var refs := rule.refs;
      var stable := RefOf(refs, c.stable);
      var canary := if Has(refs, c.canary) then RefOf(refs, c.canary) else stable.(name := c.canary);
      var su, cu := stable.(weight := Some(100 - u)), canary.(weight := Some(u));
      var sw, cw := stable.(weight := Some(100 - w)), canary.(weight := Some(w));
      SetSame(refs, su);
      SetSame(Set(refs, su), cu);
      SetOther(refs, su, c.canary);
      SetOther(Set(refs, su), cu, c.stable);
      assert WeightRule(c, WeightRule(c, rule, u), w).refs == Set(Set(Set(Set(refs, su), cu), sw), cw);
      SetCommutes(Set(refs, su), cu, sw);
      SetTwice(refs, su, sw);
      SetTwice(Set(refs, sw), cu, cw);
    }
  }

  /** A later weight replaces an earlier one; the same weight again changes nothing. */
  lemma {:induction false} LaterWeightWins(c: Config, rules: seq<Rule>, u: int, w: int)
    requires TwoServices(c)
    ensures Weighted(c, Weighted(c, rules, u), w) == Weighted(c, rules, w)
  {
    hide WeightRule;
    if rules != [] {
      LaterWeightWins(c, rules[..|rules| - 1], u, w);
      WeightRuleOverrides(c, rules[|rules| - 1], u, w);
      assert Weighted(c, rules, u)[..|rules| - 1] == Weighted(c, rules[..|rules| - 1], u) by { WeightedLength(c, rules[..|rules| - 1], u); }
    }
  }

  lemma {:induction false} WeightedLength(c: Config, rules: seq<Rule>, w: int)
    ensures |Weighted(c, rules, w)| == |rules|
  {
    if rules != [] {
      WeightedLength(c, rules[..|rules| - 1], w);
    }
  }

  /* ---- weights and back ---- */

  lemma {:induction false} RestoreIgnoresWeight(c: Config, rule: Rule, w: int)
    requires TwoServices(c)
    ensures RestoredRefs(c, WeightRule(c, rule, w).refs) == RestoredRefs(c, rule.refs)
  {
    hide Set, Without;
    if Has(rule.refs, c.stable) {
      var refs := rule.refs;
      var stable := RefOf(refs, c.stable);
      var canary := if Has(refs, c.canary) then RefOf(refs, c.canary) else stable.(name := c.canary);
      var s, d := stable.(weight := Some(100 - w)), canary.(weight := Some(w));
      WithoutSame(Set(refs, s), d);
      WithoutSetOther(refs, c.canary, s);
      WithoutOther(refs, c.canary, c.stable);
      var rest := Without(refs, c.canary);
      SetSame(rest, s);
      SetTwice(rest, s, s.(weight := Some(1)));
    }
  }

  lemma {:induction false} WeightKeepsRest(c: Config, rule: Rule, w: int)
    ensures WeightRule(c, rule, w) == rule.(refs := WeightRule(c, rule, w).refs)
    ensures !Has(rule.refs, c.stable) ==> WeightRule(c, rule, w) == rule
  {
    hide Set;
  }

  /** Restoring forgets any weight, whatever the rules were. */
  lemma {:induction false} RestoreUndoesWeight(c: Config, rules: seq<Rule>, w: int)
    requires TwoServices(c)
    ensures Restored(c, Weighted(c, rules, w)) == Restored(c, rules)
  {
    hide WeightRule, RestoredRefs;
    if rules != [] {
      var front, last := rules[..|rules| - 1], rules[|rules| - 1];
      RestoreUndoesWeight(c, front, w);
      RestoreIgnoresWeight(c, last, w);
      WeightedLength(c, front, w);
      assert Weighted(c, rules, w)[..|rules| - 1] == Weighted(c, front, w);
      WeightKeepsRest(c, last, w);
    }
  }

  /* ---- headers and back ---- */

  lemma {:induction false} RestoredConcat(c: Config, s: seq<Rule>, t: seq<Rule>)
    ensures Restored(c, s + t) == Restored(c, s) + Restored(c, t)
  {
    hide RestoredRefs;
    if t == [] {
      assert s + t == s;
    } else {
      assert (s + t)[..|s + t| - 1] == s + t[..|t| - 1];
      RestoredConcat(c, s, t[..|t| - 1]);
    }
  }

  lemma {:induction false} OneCanary(c: Config, ref: Ref)
    requires TwoServices(c) && Names(ref, c.canary)
    ensures Has([ref], c.canary) && RestoredRefs(c, [ref]) == []
  {
    IndexIs([ref], c.canary, 0);
  }

  lemma {:induction false} CanariesVanish(c: Config, rules: seq<Rule>, matches: seq<Match>)
    requires TwoServices(c)
    ensures Restored(c, Canaries(c, rules, matches)) == []
    ensures Plain(c, Canaries(c, rules, matches)) == [] && Canaries(c, Canaries(c, rules, matches), matches) == []
    ensures forall r :: r in Canaries(c, rules, matches) ==> |r.refs| == 1 && Has(r.refs, c.canary)
  {
    hide RestoredRefs, Products, Taken, WithPath, HasStable;
    if rules != [] {
      CanariesVanish(c, rules[..|rules| - 1], matches);
      var last := rules[|rules| - 1];
      if Has(last.refs, c.stable) {
        OneCanary(c, RefOf(last.refs, c.stable).(name := c.canary));
        var before, all := Canaries(c, rules[..|rules| - 1], matches), Canaries(c, rules, matches);
        assert all == before || (|all| == |before| + 1 && all[..|all| - 1] == before);
      }
    }
  }

  /** Restoring after a header rewrite gives what restoring the rules without canary
      references gives: the canary rules leave no trace. */
  lemma {:induction false} RestoreUndoesHeaders(c: Config, rules: seq<Rule>, matches: seq<Match>)
    requires TwoServices(c)
    ensures Restored(c, Headed(c, rules, matches)) == Restored(c, Plain(c, rules))
  {
    RestoredConcat(c, Plain(c, rules), Canaries(c, rules, matches));
    CanariesVanish(c, rules, matches);
  }

  /** Every rule with a canary reference has nothing else. */
  ghost predicate CanaryRulesApart(c: Config, rules: seq<Rule>) {
    forall r :: r in rules && Has(r.refs, c.canary) ==> |r.refs| == 1
  }

  lemma {:induction false} PlainLosesNothing(c: Config, rules: seq<Rule>)
    requires TwoServices(c)
    ensures |Restored(c, Plain(c, rules))| <= |Restored(c, rules)|
    ensures CanaryRulesApart(c, rules) <==> |Restored(c, Plain(c, rules))| == |Restored(c, rules)|
    ensures CanaryRulesApart(c, rules) ==> Restored(c, Plain(c, rules)) == Restored(c, rules)
  {
    hide RestoredRefs;
    if rules != [] {
      var front, last := rules[..|rules| - 1], rules[|rules| - 1];
      PlainLosesNothing(c, front);
      assert forall r :: r in rules <==> r in front || r == last;
      if Has(last.refs, c.canary) {
        RestoredRefsEmpty(c, last.refs);
      } else {
        assert (Plain(c, front) + [last])[..|Plain(c, front)|] == Plain(c, front);
      }
    }
  }

  lemma {:induction false} RestoredRefsEmpty(c: Config, refs: seq<Ref>)
    requires Has(refs, c.canary)
    ensures RestoredRefs(c, refs) == [] <==> |refs| == 1
  {
  }

  /** A header rewrite can be undone if and only if it finds no canary reference
      beside another one: it drops the rules that carry a canary reference, and with
      them their stable backends. */
  lemma {:induction false} HeadersUndoneExactlyWhen(c: Config, rules: seq<Rule>, matches: seq<Match>)
    requires TwoServices(c)
    ensures Restored(c, Headed(c, rules, matches)) == Restored(c, rules) <==> CanaryRulesApart(c, rules)
  {
    RestoreUndoesHeaders(c, rules, matches);
    PlainLosesNothing(c, rules);
  }

  lemma {:induction false} PlainConcat(c: Config, s: seq<Rule>, t: seq<Rule>)
    ensures Plain(c, s + t) == Plain(c, s) + Plain(c, t)
  {
    if t == [] {
      assert s + t == s;
    } else {
      assert (s + t)[..|s + t| - 1] == s + t[..|t| - 1];
      PlainConcat(c, s, t[..|t| - 1]);
    }
  }

  lemma {:induction false} PlainTwice(c: Config, rules: seq<Rule>)
    ensures Plain(c, Plain(c, rules)) == Plain(c, rules)
  {
    if rules != [] {
      var front, last := rules[..|rules| - 1], rules[|rules| - 1];
      PlainTwice(c, front);
      assert (Plain(c, front) + [last])[..|Plain(c, front)|] == Plain(c, front);
    }
  }

  lemma {:induction false} CanariesOfPlain(c: Config, rules: seq<Rule>, matches: seq<Match>)
    ensures Canaries(c, Plain(c, rules), matches) == Canaries(c, rules, matches)
    ensures HasStable(c, Plain(c, rules)) == HasStable(c, rules)
  {
    hide Products, Taken, WithPath, HasStable;
    if rules == [] {
      assert Plain(c, rules) == rules;
    } else {
      var n := |rules| - 1;
      CanariesOfPlain(c, rules[..n], matches);
      StableSoFar(c, rules, n);
      assert rules[..n + 1] == rules;
      if !Has(rules[n].refs, c.canary) {
        var p := Plain(c, rules);
        var m := |p| - 1;
        assert p[..m] == Plain(c, rules[..n]);
        StableSoFar(c, p, m);
        assert p[..m + 1] == p;
      }
    }
  }

  lemma {:induction false} CanariesConcat(c: Config, s: seq<Rule>, t: seq<Rule>, matches: seq<Match>)
    requires forall r :: r in t ==> Has(r.refs, c.canary)
    ensures Canaries(c, s + t, matches) == Canaries(c, s, matches)
  {
    hide Products, Taken, WithPath, HasStable;
    if t == [] {
      assert s + t == s;
    } else {
      assert (s + t)[..|s + t| - 1] == s + t[..|t| - 1];
      assert t[|t| - 1] in t && forall r :: r in t[..|t| - 1] ==> r in t;
      CanariesConcat(c, s, t[..|t| - 1], matches);
    }
  }

  /** Later headers replace earlier ones; the same headers again change nothing. */
  lemma {:induction false} LaterHeadersWin(c: Config, rules: seq<Rule>, ms: seq<Match>, ns: seq<Match>)
    requires TwoServices(c)
    ensures Headed(c, Headed(c, rules, ms), ns) == Headed(c, rules, ns)
  {
    var plain, canaries := Plain(c, rules), Canaries(c, rules, ms);
    CanariesVanish(c, rules, ms);
    PlainConcat(c, plain, canaries);
    PlainTwice(c, rules);
    CanariesConcat(c, plain, canaries, ns);
    CanariesOfPlain(c, rules, ns);
  }

  /* ---- what a provider promises ---- */

  predicate Progressive(wish: Wish) {
    wish.Weight? ==> wish.weight != -1
  }

  /** A second call finds the route as desired. */
  lemma {:induction false} SecondCallVerifies(c: Config, rules: seq<Rule>, wish: Wish)
    requires TwoServices(c) && Progressive(wish)
    ensures Desired(c, Desired(c, rules, wish), wish) == Desired(c, rules, wish)
  {
    match wish {
      case Weight(w) => LaterWeightWins(c, rules, w, w);
      case Headers(ms) => LaterHeadersWin(c, rules, ms, ms);
    }
  }

  /** The weight -1 takes a weight back. */
  lemma {:induction false} NoWeightRestores(c: Config, rules: seq<Rule>, w: int)
    requires TwoServices(c) && w != -1
    ensures Desired(c, Desired(c, rules, Weight(w)), Weight(-1)) == Restored(c, rules)
  {
    RestoreUndoesWeight(c, rules, w);
  }

  function Rewritten(c: Config, rules: seq<Rule>, wishes: seq<Wish>): seq<Rule> {
    if wishes == [] then rules else Desired(c, Rewritten(c, rules, wishes[..|wishes| - 1]), wishes[|wishes| - 1])
  }

  /** No header rewrite comes after a weight. */
  predicate HeadersFirst(wishes: seq<Wish>) {
    forall i, j :: 0 <= i < j < |wishes| && wishes[i].Weight? ==> wishes[j].Weight?
  }

  lemma {:induction false} HeadersKeepApart(c: Config, rules: seq<Rule>, matches: seq<Match>)
    requires TwoServices(c)
    ensures CanaryRulesApart(c, Headed(c, rules, matches))
  {
    CanariesVanish(c, rules, matches);
    PlainMembers(c, rules);
  }

  lemma {:induction false} PlainMembers(c: Config, rules: seq<Rule>)
    ensures forall r :: r in Plain(c, rules) ==> !Has(r.refs, c.canary)
  {
    if rules != [] {
      PlainMembers(c, rules[..|rules| - 1]);
    }
  }

  /** After any run of rewrites, headers before weights, restoring gives what it
      would have given at the start. */
  lemma {:induction false} RestoreUndoesRun(c: Config, rules: seq<Rule>, wishes: seq<Wish>)
    requires TwoServices(c) && CanaryRulesApart(c, rules)
    requires HeadersFirst(wishes) && forall w :: w in wishes ==> Progressive(w)
    ensures Restored(c, Rewritten(c, rules, wishes)) == Restored(c, rules)
    ensures (forall w :: w in wishes ==> w.Headers?) ==> CanaryRulesApart(c, Rewritten(c, rules, wishes))
  {
    hide Weighted, Headed, Restored, CanaryRulesApart;
    if wishes != [] {
      var before, last := wishes[..|wishes| - 1], wishes[|wishes| - 1];
      assert last in wishes && forall w :: w in before ==> w in wishes;
      RestoreUndoesRun(c, rules, before);
      var now := Rewritten(c, rules, before);
      match last {
        case Weight(w) => RestoreUndoesWeight(c, now, w);
        case Headers(ms) =>
          assert forall w :: w in before ==> w.Headers?;
          HeadersUndoneExactlyWhen(c, now, ms);
          HeadersKeepApart(c, now, ms);
      }
    }
  }

  /** A header rewrite straight after a weight loses the rules of the stable service,
      for good: exactly when there is such a rule. */
  lemma {:induction false} HeadersAfterWeightLose(c: Config, rules: seq<Rule>, w: int, matches: seq<Match>)
    requires TwoServices(c) && forall r :: r in rules ==> !Has(r.refs, c.canary)
    ensures Restored(c, Headed(c, Weighted(c, rules, w), matches)) == Restored(c, rules)
            <==> forall r :: r in rules ==> !Has(r.refs, c.stable)
  {
    hide Restored;
    RestoreUndoesWeight(c, rules, w);
    HeadersUndoneExactlyWhen(c, Weighted(c, rules, w), matches);
    WeightedApart(c, rules, w);
  }

  lemma {:induction false} WeightedApart(c: Config, rules: seq<Rule>, w: int)
    requires TwoServices(c) && forall r :: r in rules ==> !Has(r.refs, c.canary)
    ensures CanaryRulesApart(c, Weighted(c, rules, w)) <==> forall r :: r in rules ==> !Has(r.refs, c.stable)
  {
    hide WeightRule;
    if rules != [] {
      var front, last := rules[..|rules| - 1], rules[|rules| - 1];
      assert last in rules && forall r :: r in front ==> r in rules;
      WeightedApart(c, front, w);
      assert forall r :: r in Weighted(c, rules, w) <==> r in Weighted(c, front, w) || r == WeightRule(c, last, w);
      assert forall r :: r in rules <==> r in front || r == last;
      if Has(last.refs, c.stable) {
        WeightsAddUp(c, last, w);
      } else {
        WeightKeepsRest(c, last, w);
      }
    }
  }

  /** Restoring is the identity on rules that are as a route without a canary is:
      no canary reference, some backend, and weight 1 on the stable one. */
  predicate Original(c: Config, r: Rule) {
    && r.refs != [] && !Has(r.refs, c.canary)
    && (Has(r.refs, c.stable) ==> RefOf(r.refs, c.stable).weight == Some(1))
  }

  lemma {:induction false} RestoredRefsSame(c: Config, refs: seq<Ref>)
    requires TwoServices(c) && refs != []
    ensures RestoredRefs(c, refs) == refs
            <==> !Has(refs, c.canary) && (Has(refs, c.stable) ==> RefOf(refs, c.stable).weight == Some(1))
  {
    if Has(refs, c.canary) {
      assert |Without(refs, c.canary)| == |refs| - 1;
    } else if Has(refs, c.stable) {
      var s := RefOf(refs, c.stable).(weight := Some(1));
      assert Set(refs, s)[IndexOf(refs, c.stable)] == s;
    }
  }

  lemma {:induction false} RestoredLength(c: Config, rules: seq<Rule>)
    ensures |Restored(c, rules)| <= |rules|
  {
    if rules != [] {
      RestoredLength(c, rules[..|rules| - 1]);
    }
  }

  lemma {:induction false} RestoredSameStep(c: Config, front: seq<Rule>, last: Rule)
    ensures Restored(c, front + [last]) == front + [last]
            <==> Restored(c, front) == front && last.refs != [] && RestoredRefs(c, last.refs) == last.refs
  {
    var refs := RestoredRefs(c, last.refs);
    assert (front + [last])[..|front|] == front;
    assert refs == [] ==> Restored(c, front + [last]) == Restored(c, front);
    assert refs != [] ==> Restored(c, front + [last]) == Restored(c, front) + [last.(refs := refs)];
    hide RestoredRefs;
    RestoredLength(c, front);
    if refs != [] && Restored(c, front + [last]) == front + [last] {
      assert (Restored(c, front) + [last.(refs := refs)])[|front|] == last;
      assert (Restored(c, front) + [last.(refs := refs)])[..|front|] == Restored(c, front);
    }
  }

  lemma {:induction false} RestoreGivesOriginal(c: Config, rules: seq<Rule>)
    requires TwoServices(c)
    ensures Restored(c, rules) == rules <==> forall r :: r in rules ==> Original(c, r)
  {
    if rules == [] {
    } else {
      hide RestoredRefs, Restored;
      var front, last := rules[..|rules| - 1], rules[|rules| - 1];
      RestoreGivesOriginal(c, front);
      assert rules == front + [last];
      RestoredSameStep(c, front, last);
      OriginalIsRestored(c, last);
      hide Original;
      assert forall r :: r in rules <==> r in front || r == last;
    }
  }

  lemma {:induction false} OriginalIsRestored(c: Config, r: Rule)
    requires TwoServices(c)
    ensures Original(c, r) <==> r.refs != [] && RestoredRefs(c, r.refs) == r.refs
  {
    if r.refs != [] {
      RestoredRefsSame(c, r.refs);
    }
  }

  /* ---- restoring twice ---- */

  lemma {:induction false} RestoredRefsMeans(c: Config, refs: seq<Ref>)
    requires TwoServices(c)
    ensures var rest := Without(refs, c.canary);
      var after := RestoredRefs(c, refs);
      && Has(after, c.canary) == Has(rest, c.canary)
      && (after == [] ==> !Has(rest, c.canary))
      && (Has(after, c.stable) ==> RefOf(after, c.stable).weight == Some(1))
  {
    hide Without;
    var rest := Without(refs, c.canary);
    if Has(rest, c.stable) {
      var s := RefOf(rest, c.stable).(weight := Some(1));
      SetSame(rest, s);
      SetOther(rest, s, c.canary);
    }
  }

  /** A second reference to the canary service: restoring removes only the first. */
  ghost predicate SingleCanaries(c: Config, rules: seq<Rule>) {
    forall r :: r in rules ==> !Has(Without(r.refs, c.canary), c.canary)
  }

  lemma {:induction false} RestoredAreOriginal(c: Config, rules: seq<Rule>)
    requires TwoServices(c)
    ensures (forall r :: r in Restored(c, rules) ==> Original(c, r)) <==> SingleCanaries(c, rules)
  {
    hide RestoredRefs, Without, Has;
    if rules != [] {
      var front, last := rules[..|rules| - 1], rules[|rules| - 1];
      RestoredAreOriginal(c, front);
      RestoredRefsMeans(c, last.refs);
      assert last in rules && forall r :: r in front ==> r in rules;
      assert forall k :: 0 <= k < |rules| ==> rules[k] in front || rules[k] == last;
      assert SingleCanaries(c, rules) <==> SingleCanaries(c, front) && !Has(Without(last.refs, c.canary), c.canary);
      var after := last.(refs := RestoredRefs(c, last.refs));
      if after.refs != [] {
        assert Original(c, after) <==> !Has(Without(last.refs, c.canary), c.canary);
        assert Restored(c, rules) == Restored(c, front) + [after];
        assert after in Restored(c, rules) && forall r :: r in Restored(c, front) ==> r in Restored(c, rules);
      } else {
        assert Restored(c, rules) == Restored(c, front);
      }
    }
  }

  /** Restoring twice is restoring once if and only if no rule has two references to
      the canary service. */
  lemma {:induction false} RestoreTwiceExactlyWhen(c: Config, rules: seq<Rule>)
    requires TwoServices(c)
    ensures Restored(c, Restored(c, rules)) == Restored(c, rules) <==> SingleCanaries(c, rules)
  {
    hide Restored, SingleCanaries;
    RestoreGivesOriginal(c, Restored(c, rules));
    RestoredAreOriginal(c, rules);
  }

  /** One rule with two canary references and a stable one: the second restoring
      changes the route again. */
  lemma SecondCanaryStays(c: Config, own: Match, other: string)
    requires TwoServices(c)
    ensures var canary, stable := Ref(true, c.canary, None, ""), Ref(true, c.stable, Some(1), "");
      var rule := Rule([own], [canary, canary, stable], other);
      !SingleCanaries(c, [rule]) && Restored(c, Restored(c, [rule])) != Restored(c, [rule])
  {
    var canary, stable := Ref(true, c.canary, None, ""), Ref(true, c.stable, Some(1), "");
    var rule := Rule([own], [canary, canary, stable], other);
    IndexIs(rule.refs, c.canary, 0);
    assert Without(rule.refs, c.canary) == [canary, stable];
    IndexIs([canary, stable], c.canary, 0);
    assert rule in [rule];
    RestoreTwiceExactlyWhen(c, [rule]);
  }

  /* ---- which matches are used ---- */

  /** Every match without a path comes before every one with a path. */
  predicate PathsLast(matches: seq<Match>) {
    forall i, j :: 0 <= i < j < |matches| && matches[j].path.None? ==> matches[i].path.None?
  }

  lemma {:induction false} SplitWithoutPath(matches: seq<Match>, n: nat)
    requires n <= |matches|
    ensures WithoutPath(matches) == WithoutPath(matches[..n]) + WithoutPath(matches[n..])
  {
    WithoutPathConcat(matches[..n], matches[n..]);
    assert matches[..n] + matches[n..] == matches;
  }

  lemma {:induction false} TakenMeansPathsLast(matches: seq<Match>, n: nat)
    requires n == |WithoutPath(matches)| <= |matches| && forall k :: 0 <= k < n ==> matches[k].path.None?
    ensures PathsLast(matches) && matches[..n] == WithoutPath(matches)
  {
    hide WithoutPath;
    LeadingWithoutPath(matches, n);
    SplitWithoutPath(matches, n);
    forall j | n <= j < |matches|
      ensures matches[j].path.Some?
    {
      if matches[j].path.None? {
        NoneWithoutPath(matches[n..], j - n);
      }
    }
  }

  lemma {:induction false} PathsLastMeansTaken(matches: seq<Match>, k: nat)
    requires PathsLast(matches) && k < |WithoutPath(matches)| <= |matches|
    ensures matches[k].path.None?
  {
    if matches[k].path.Some? {
      SplitWithoutPath(matches, k);
      AllWithPath(matches[k..]);
    }
  }

  /** The matches added to the rules are those without a path if and only if these
      come first: the loop counts the ones without a path but indexes all of them. */
  lemma {:induction false} TakenAreRight(matches: seq<Match>)
    ensures Taken(matches) == WithoutPath(matches) <==> PathsLast(matches)
  {
    var n := |WithoutPath(matches)|;
    WithoutPathMembers(matches);
    hide WithoutPath;
    if Taken(matches) == WithoutPath(matches) {
      assert forall k :: 0 <= k < n ==> Taken(matches)[k] == matches[k];
      TakenMeansPathsLast(matches, n);
    } else if PathsLast(matches) {
      forall k | 0 <= k < n
        ensures matches[k].path.None?
      {
        PathsLastMeansTaken(matches, k);
      }
      TakenMeansPathsLast(matches, n);
    }
  }

  lemma {:induction false} NoneWithoutPath(matches: seq<Match>, k: nat)
    requires k < |matches| && matches[k].path.None?
    ensures |WithoutPath(matches)| >= 1
  {
    if k < |matches| - 1 {
      NoneWithoutPath(matches[..|matches| - 1], k);
    }
  }

  lemma {:induction false} AllWithPath(matches: seq<Match>)
    requires forall k :: 0 <= k < |matches| ==> matches[k].path.Some?
    ensures WithoutPath(matches) == []
  {
    if matches != [] {
      AllWithPath(matches[..|matches| - 1]);
    }
  }

  /** A path first and a header second: the path match is added to the rules, and the
      header to none. */
  lemma PathFirstTakesPath(path: string, header: string)
    ensures var p, h := Match(Some(path), [], [], ""), Match(None, [header], [], "");
      Taken([p, h]) == [p] && WithoutPath([p, h]) == [h]
  {
    var p, h := Match(Some(path), [], [], ""), Match(None, [header], [], "");
    assert [p, h][..1] == [p] && [p][..0] == [];
    assert WithoutPath([p]) == [];
    assert WithoutPath([p, h]) == [h];
  }

  lemma {:induction false} WithoutPathMembers(matches: seq<Match>)
    ensures forall m :: m in WithoutPath(matches) ==> m.path.None?
  {
    if matches != [] {
      WithoutPathMembers(matches[..|matches| - 1]);
    }
  }

  lemma {:induction false} LeadingWithoutPath(matches: seq<Match>, n: nat)
    requires n <= |matches| && forall k :: 0 <= k < n ==> matches[k].path.None?
    ensures WithoutPath(matches[..n]) == matches[..n]
  {
    if n > 0 {
      assert matches[..n][..n - 1] == matches[..n - 1];
      LeadingWithoutPath(matches, n - 1);
    }
  }

  lemma {:induction false} WithoutPathConcat(s: seq<Match>, t: seq<Match>)
    ensures WithoutPath(s + t) == WithoutPath(s) + WithoutPath(t)
  {
    if t == [] {
      assert s + t == s;
    } else {
      assert (s + t)[..|s + t| - 1] == s + t[..|t| - 1];
      WithoutPathConcat(s, t[..|t| - 1]);
    }
  }
}
