/** Rewriting the rules of an HTTPRoute for a canary (network/gateway/gateway.go):
    by weight, by headers, and back. A rule is built from copies, so the rewrites
    are modelled on values; each loop is proved against a function of the rules. */
module Gateway {
  import opened Arithmetic

  /** `other` stands for the fields that no rewrite looks at. */
  datatype Ref = Ref(isService: bool, name: string, weight: Option<int>, other: string)

  datatype Match = Match(path: Option<string>, headers: seq<string>, params: seq<string>, other: string)

  datatype Rule = Rule(matches: seq<Match>, refs: seq<Ref>, other: string)

  /** The names of the two services. */
  datatype Config = Config(stable: string, canary: string)

  /* ---- references ---- */

  predicate Names(ref: Ref, name: string) {
    ref.isService && ref.name == name
  }

  /** The first reference to a service, or the length if there is none. */
  function IndexOf(refs: seq<Ref>, name: string): (i: nat)
    ensures i <= |refs|
    ensures i < |refs| ==> Names(refs[i], name)
    ensures forall k :: 0 <= k < i ==> !Names(refs[k], name)
  {
    if refs == [] || Names(refs[0], name) then 0 else 1 + IndexOf(refs[1..], name)
  }

  predicate Has(refs: seq<Ref>, name: string) {
    IndexOf(refs, name) < |refs|
  }

  function RefOf(refs: seq<Ref>, name: string): Ref
    requires Has(refs, name)
  {
    refs[IndexOf(refs, name)]
  }

  function Set(refs: seq<Ref>, ref: Ref): seq<Ref> {
    if !ref.isService then refs
    else if Has(refs, ref.name) then refs[IndexOf(refs, ref.name) := ref]
    else refs + [ref]
  }

  function Without(refs: seq<Ref>, name: string): seq<Ref> {
    if Has(refs, name) then refs[..IndexOf(refs, name)] + refs[IndexOf(refs, name) + 1..] else refs
  }

  method GetServiceBackendRef(refs: seq<Ref>, name: string) returns (index: nat, ref: Option<Ref>)
    ensures ref == if Has(refs, name) then Some(RefOf(refs, name)) else None
    ensures ref.Some? ==> index == IndexOf(refs, name)
  {
    for i := 0 to |refs|
      invariant forall k :: 0 <= k < i ==> !Names(refs[k], name)
    {
      if refs[i].isService && refs[i].name == name {
        return i, Some(refs[i]);
      }
    }
    return 0, None;
  }

  method SetServiceBackendRef(refs: seq<Ref>, ref: Ref) returns (after: seq<Ref>)
    ensures after == Set(refs, ref)
  {
    if !ref.isService {
      return refs;
    }
    var index, currentRef := GetServiceBackendRef(refs, ref.name);
    if currentRef.None? {
      return refs + [ref];
    }
    after := [];
    for i := 0 to |refs|
      invariant after == refs[index := ref][..i]
    {
      if i == index {
        after := after + [ref];
      } else {
        after := after + [refs[i]];
      }
    }
  }

  method FilterOutServiceBackendRef(refs: seq<Ref>, name: string) returns (after: seq<Ref>)
    ensures after == Without(refs, name)
  {
    var index, ref := GetServiceBackendRef(refs, name);
    if ref.None? {
      return refs;
    }
    after := [];
    for i := 0 to |refs|
      invariant after == if i <= index then refs[..i] else refs[..index] + refs[index + 1..i]
    {
      if i != index {
        after := after + [refs[i]];
      }
    }
  }

  /* ---- weights ---- */

  function WeightRule(c: Config, rule: Rule, weight: int): Rule {
    if !Has(rule.refs, c.stable) then rule
    else
      var stable := RefOf(rule.refs, c.stable);
      var canary := if Has(rule.refs, c.canary) then RefOf(rule.refs, c.canary) else stable.(name := c.canary);
      rule.(refs := Set(Set(rule.refs, stable.(weight := Some(100 - weight))), canary.(weight := Some(weight))))
  }

  function Weighted(c: Config, rules: seq<Rule>, weight: int): seq<Rule> {
    if rules == [] then [] else Weighted(c, rules[..|rules| - 1], weight) + [WeightRule(c, rules[|rules| - 1], weight)]
  }

  method BuildCanaryWeightHttpRoutes(c: Config, rules: seq<Rule>, weight: int) returns (desired: seq<Rule>)
    ensures desired == Weighted(c, rules, weight)
  {
    desired := [];
    for i := 0 to |rules|
      invariant desired == Weighted(c, rules[..i], weight)
    {
      var rule := rules[i];
      assert rules[..i + 1][..i] == rules[..i];
      var _, stableRef := GetServiceBackendRef(rule.refs, c.stable);
      if stableRef.None? {
        desired := desired + [rule];
      } else {
        var _, canaryRef := GetServiceBackendRef(rule.refs, c.canary);
        if canaryRef.None? {
          canaryRef := Some(stableRef.value.(name := c.canary));
        }
        var refs := SetServiceBackendRef(rule.refs, stableRef.value.(weight := Some(100 - weight)));
        refs := SetServiceBackendRef(refs, canaryRef.value.(weight := Some(weight)));
        desired := desired + [rule.(refs := refs)];
      }
    }
    assert rules[..|rules|] == rules;
  }

  /* ---- back to the original ---- */

  function RestoredRefs(c: Config, refs: seq<Ref>): seq<Ref> {
    var rest := Without(refs, c.canary);
    if Has(rest, c.stable) then Set(rest, RefOf(rest, c.stable).(weight := Some(1))) else rest
  }

  function Restored(c: Config, rules: seq<Rule>): seq<Rule> {
    if rules == [] then []
    else
      var before, last := Restored(c, rules[..|rules| - 1]), rules[|rules| - 1];
      var refs := RestoredRefs(c, last.refs);
      if refs == [] then before else before + [last.(refs := refs)]
  }

  method RestoreHttpRoutes(c: Config, rules: seq<Rule>) returns (desired: seq<Rule>)
    ensures desired == Restored(c, rules)
  {
    desired := [];
    for i := 0 to |rules|
      invariant desired == Restored(c, rules[..i])
    {
      var rule := rules[i];
      assert rules[..i + 1][..i] == rules[..i];
      var refs := FilterOutServiceBackendRef(rule.refs, c.canary);
      var _, stableRef := GetServiceBackendRef(refs, c.stable);
      if stableRef.Some? {
        refs := SetServiceBackendRef(refs, stableRef.value.(weight := Some(1)));
      }
      if |refs| != 0 {
        desired := desired + [rule.(refs := refs)];
      }
    }
    assert rules[..|rules|] == rules;
  }

  /* ---- headers ---- */

  function WithPath(matches: seq<Match>): seq<Match> {
    if matches == [] then []
    else
      var before, last := WithPath(matches[..|matches| - 1]), matches[|matches| - 1];
      if last.path.Some? then before + [Match(last.path, last.headers, last.params, "")] else before
  }

  function WithoutPath(matches: seq<Match>): (r: seq<Match>)
    ensures |r| <= |matches|
  {
    if matches == [] then []
    else
      var before, last := WithoutPath(matches[..|matches| - 1]), matches[|matches| - 1];
      if last.path.None? then before + [last] else before
  }

  function Extended(m: Match, extra: Match): Match {
    m.(headers := m.headers + extra.headers, params := m.params + extra.params)
  }

  function ExtendedBy(m: Match, matches: seq<Match>): seq<Match> {
    if matches == [] then [] else ExtendedBy(m, matches[..|matches| - 1]) + [Extended(m, matches[|matches| - 1])]
  }

  /** Every match of a rule, extended by every one of `matches`. */
  function Products(own: seq<Match>, matches: seq<Match>): seq<Match> {
    if own == [] then [] else Products(own[..|own| - 1], matches) + ExtendedBy(own[|own| - 1], matches)
  }

  function Plain(c: Config, rules: seq<Rule>): seq<Rule> {
    if rules == [] then []
    else
      var before, last := Plain(c, rules[..|rules| - 1]), rules[|rules| - 1];
      if Has(last.refs, c.canary) then before else before + [last]
  }

  /** The matches taken for those without a path: as many as there are of those,
      but from the front of all matches. */
  function Taken(matches: seq<Match>): seq<Match> {
    matches[..|WithoutPath(matches)|]
  }

  predicate HasStable(c: Config, rules: seq<Rule>) {
    exists k :: 0 <= k < |rules| && Has(rules[k].refs, c.stable) && !Has(rules[k].refs, c.canary)
  }

  /** The canary rules; matches with a path go to the first of them only. */
  function Canaries(c: Config, rules: seq<Rule>, matches: seq<Match>): seq<Rule> {
    if rules == [] then []
    else
      var front, last := rules[..|rules| - 1], rules[|rules| - 1];
      var before := Canaries(c, front, matches);
      if Has(last.refs, c.canary) || !Has(last.refs, c.stable) then before
      else
        var paths := if HasStable(c, front) then [] else WithPath(matches);
        if paths == [] && Taken(matches) == [] then before
        else before + [Rule(paths + Products(last.matches, Taken(matches)), [RefOf(last.refs, c.stable).(name := c.canary)], last.other)]
  }

  function Headed(c: Config, rules: seq<Rule>, matches: seq<Match>): seq<Rule> {
    Plain(c, rules) + Canaries(c, rules, matches)
  }

  method FilterMatches(matches: seq<Match>) returns (paths: seq<Match>, nonPaths: seq<Match>)
    ensures paths == WithPath(matches) && nonPaths == WithoutPath(matches)
  {
    paths, nonPaths := [], [];
    for i := 0 to |matches|
      invariant paths == WithPath(matches[..i]) && nonPaths == WithoutPath(matches[..i])
    {
      var m := matches[i];
      assert matches[..i + 1][..i] == matches[..i];
      if m.path.Some? {
        paths := paths + [Match(m.path, m.headers, m.params, "")];
      } else {
        nonPaths := nonPaths + [m];
      }
    }
    assert matches[..|matches|] == matches;
  }

  /** The two inner loops, over a rule's matches and over the matches to add. */
  method BuildMatches(own: seq<Match>, matches: seq<Match>, count: nat) returns (products: seq<Match>)
    requires count <= |matches|
    ensures products == Products(own, matches[..count])
  {
    products := [];
    for j := 0 to |own|
      invariant products == Products(own[..j], matches[..count])
    {
      ghost var before := products;
      assert own[..j + 1][..j] == own[..j];
      for k := 0 to count
        invariant products == before + ExtendedBy(own[j], matches[..k])
      {
        var base := own[j];
        assert matches[..k + 1][..k] == matches[..k];
        if |matches[k].headers| > 0 {
          base := base.(headers := base.headers + matches[k].headers);
        }
        if |matches[k].params| > 0 {
          base := base.(params := base.params + matches[k].params);
        }
        assert base == Extended(own[j], matches[k]);
        products := products + [base];
      }
    }
    assert own[..|own|] == own;
  }

  method BuildCanaryHeaderHttpRoutes(c: Config, rules: seq<Rule>, matches: seq<Match>) returns (desired: seq<Rule>)
    ensures desired == Headed(c, rules, matches)
  {
    hide Products;
    desired := [];
    var canaries: seq<Rule> := [];
    var pathMatches, nonPathMatches := FilterMatches(matches);
    for i := 0 to |rules|
      invariant desired == Plain(c, rules[..i])
      invariant canaries == Canaries(c, rules[..i], matches)
      invariant pathMatches == if HasStable(c, rules[..i]) then [] else WithPath(matches)
    {
      var rule := rules[i];
      assert rules[..i + 1][..i] == rules[..i];
      StableSoFar(c, rules, i);
      var _, canaryRef := GetServiceBackendRef(rule.refs, c.canary);
      if canaryRef.None? {
        desired := desired + [rule];
        var _, stableRef := GetServiceBackendRef(rule.refs, c.stable);
        if stableRef.Some? {
          var newMatches := pathMatches;
          pathMatches := [];
          if !(|nonPathMatches| == 0 && |newMatches| == 0) {
            var products := BuildMatches(rule.matches, matches, |nonPathMatches|);
            canaries := canaries + [Rule(newMatches + products, [stableRef.value.(name := c.canary)], rule.other)];
          }
        }
      }
    }
    assert rules[..|rules|] == rules;
    desired := desired + canaries;
  }

  lemma {:induction false} StableSoFar(c: Config, rules: seq<Rule>, i: nat)
    requires i < |rules|
    ensures HasStable(c, rules[..i + 1]) <==>
      HasStable(c, rules[..i]) || (Has(rules[i].refs, c.stable) && !Has(rules[i].refs, c.canary))
  {
    if HasStable(c, rules[..i]) {
      var k :| 0 <= k < i && Has(rules[..i][k].refs, c.stable) && !Has(rules[..i][k].refs, c.canary);
      assert rules[..i + 1][k] == rules[..i][k];
    }
    if HasStable(c, rules[..i + 1]) {
      var k :| 0 <= k < i + 1 && Has(rules[..i + 1][k].refs, c.stable) && !Has(rules[..i + 1][k].refs, c.canary);
      if k < i {
        assert rules[..i + 1][k] == rules[..i][k];
      }
    }
    assert rules[..i + 1][i] == rules[i];
  }

  /* ---- the provider ---- */

  /** What a step asks for: a weight, or matches, which win over it. */
  datatype Wish = Weight(weight: int) | Headers(matches: seq<Match>)

  function Desired(c: Config, rules: seq<Rule>, wish: Wish): seq<Rule> {
    match wish
    case Weight(w) => if w == -1 then Restored(c, rules) else Weighted(c, rules, w)
    case Headers(ms) => Headed(c, rules, ms)
  }

  /** The route that a provider reads and updates. */
  class GatewayController {
    const config: Config
    var rules: seq<Rule>

    constructor (c: Config, r: seq<Rule>)
      ensures config == c && rules == r
    {
      config, rules := c, r;
    }

    /** Verified when the route is as desired already. */
    method EnsureRoutes(wish: Wish) returns (verified: bool)
      modifies this
      ensures rules == Desired(config, old(rules), wish)
      ensures verified <==> rules == old(rules)
    {
      var desired;
      match wish {
        case Weight(w) =>
          if w == -1 {
            desired := RestoreHttpRoutes(config, rules);
          } else {
            desired := BuildCanaryWeightHttpRoutes(config, rules, w);
          }
        case Headers(ms) =>
          desired := BuildCanaryHeaderHttpRoutes(config, rules, ms);
      }
      if rules == desired {
        return true;
      }
      rules := desired;
      return false;
    }

    method Finalise() returns (modified: bool)
      modifies this
      ensures rules == Restored(config, old(rules))
      ensures modified <==> rules != old(rules)
    {
      var desired := RestoreHttpRoutes(config, rules);
      if rules == desired {
        return false;
      }
      rules := desired;
      return true;
    }
  }
}
