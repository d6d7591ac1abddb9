/** What the canary rules of a header rewrite mean for requests. */
module GatewayRequests {
  import opened Arithmetic
  import opened Gateway
  import opened GatewayProperties

  /** A request by what it satisfies. */
  datatype Request = Request(paths: set<string>, headers: set<string>, params: set<string>, others: set<string>)

  predicate Holds(m: Match, q: Request) {
    && (m.path.Some? ==> m.path.value in q.paths)
    && (forall h :: h in m.headers ==> h in q.headers)
    && (forall p :: p in m.params ==> p in q.params)
    && (m.other != "" ==> m.other in q.others)
  }

  predicate HoldsAny(ms: seq<Match>, q: Request) {
    exists m :: m in ms && Holds(m, q)
  }

  lemma {:induction false} ExtendedHolds(m: Match, extra: Match, q: Request)
    requires extra.path.None? && extra.other == ""
    ensures Holds(Extended(m, extra), q) <==> Holds(m, q) && Holds(extra, q)
  {
  }

  lemma {:induction false} ExtendedByHolds(m: Match, extras: seq<Match>, q: Request)
    requires forall x :: x in extras ==> x.path.None? && x.other == ""
    ensures HoldsAny(ExtendedBy(m, extras), q) <==> Holds(m, q) && HoldsAny(extras, q)
  {
    hide Holds, Extended;
    if extras != [] {
      var front, last := extras[..|extras| - 1], extras[|extras| - 1];
      assert last in extras && forall x :: x in front ==> x in extras;
      ExtendedByHolds(m, front, q);
      ExtendedHolds(m, last, q);
      assert forall x :: x in extras <==> x in front || x == last;
      assert forall x :: x in ExtendedBy(m, extras) <==> x in ExtendedBy(m, front) || x == Extended(m, last);
    }
  }

  /** The matches of a canary rule hold of just the requests that the stable rule's
      matches hold of and that hold for one of the added matches. */
  lemma {:induction false} CanaryMatchesMean(own: seq<Match>, extras: seq<Match>, q: Request)
    requires forall x :: x in extras ==> x.path.None? && x.other == ""
    ensures HoldsAny(Products(own, extras), q) <==> HoldsAny(own, q) && HoldsAny(extras, q)
  {
    hide Holds, ExtendedBy;
    if own != [] {
      var front, last := own[..|own| - 1], own[|own| - 1];
      CanaryMatchesMean(front, extras, q);
      ExtendedByHolds(last, extras, q);
      assert forall x :: x in own <==> x in front || x == last;
      assert forall x :: x in Products(own, extras) <==> x in Products(front, extras) || x in ExtendedBy(last, extras);
    }
  }

  predicate Takes(rules: seq<Rule>, q: Request) {
    exists r :: r in rules && HoldsAny(r.matches, q)
  }

  predicate FromStable(c: Config, rules: seq<Rule>, q: Request) {
    exists r :: r in rules && Has(r.refs, c.stable) && !Has(r.refs, c.canary) && HoldsAny(r.matches, q)
  }

  predicate Wanted(matches: seq<Match>, path: bool, q: Request) {
    exists m :: m in matches && m.path.Some? == path && Holds(m, q)
  }

  lemma {:induction false} WithPathHolds(matches: seq<Match>, q: Request)
    requires forall m :: m in matches ==> m.other == ""
    ensures HoldsAny(WithPath(matches), q) <==> Wanted(matches, true, q)
    ensures HoldsAny(WithoutPath(matches), q) <==> Wanted(matches, false, q)
    ensures WithPath(matches) == [] && WithoutPath(matches) == [] ==> matches == []
  {
    if matches != [] {
      var front, last := matches[..|matches| - 1], matches[|matches| - 1];
      assert matches == front + [last];
      assert last in matches && forall m :: m in front ==> m in matches;
      WithPathHolds(front, q);
      assert Match(last.path, last.headers, last.params, "") == last;
      hide Holds;
      assert forall m :: m in matches <==> m in front || m == last;
      assert forall m :: m in WithPath(matches) <==> m in WithPath(front) || (last.path.Some? && m == last);
      assert forall m :: m in WithoutPath(matches) <==> m in WithoutPath(front) || (last.path.None? && m == last);
    }
  }

  lemma {:induction false} HoldsEither(s: seq<Match>, t: seq<Match>, q: Request)
    ensures HoldsAny(s + t, q) <==> HoldsAny(s, q) || HoldsAny(t, q)
  {
    hide Holds;
    assert forall m :: m in s + t <==> m in s || m in t;
  }

  /** What a canary rule made from `rule` matches, with the path matches if it is the
      first. */
  lemma {:induction false} NewRuleTakes(rule: Rule, matches: seq<Match>, paths: seq<Match>, q: Request)
    requires PathsLast(matches) && forall m :: m in matches ==> m.other == ""
    ensures HoldsAny(paths + Products(rule.matches, Taken(matches)), q)
            <==> HoldsAny(paths, q) || (HoldsAny(rule.matches, q) && Wanted(matches, false, q))
  {
    hide Holds, Products, WithPath;
    TakenAreRight(matches);
    WithoutPathMembers(matches);
    WithPathHolds(matches, q);
    assert forall m :: m in Taken(matches) ==> m in matches;
    CanaryMatchesMean(rule.matches, Taken(matches), q);
    HoldsEither(paths, Products(rule.matches, Taken(matches)), q);
  }

  lemma {:induction false} TakesMore(rules: seq<Rule>, r: Rule, q: Request)
    ensures Takes(rules + [r], q) <==> Takes(rules, q) || HoldsAny(r.matches, q)
  {
    hide HoldsAny;
    assert forall x :: x in rules + [r] <==> x in rules || x == r;
  }

  lemma {:induction false} FromStableMore(c: Config, front: seq<Rule>, r: Rule, q: Request)
    ensures FromStable(c, front + [r], q)
            <==> FromStable(c, front, q) || (Has(r.refs, c.stable) && !Has(r.refs, c.canary) && HoldsAny(r.matches, q))
    ensures FromStable(c, front, q) ==> HasStable(c, front)
  {
    hide HoldsAny, Has;
    assert forall x :: x in front + [r] <==> x in front || x == r;
  }

  lemma {:induction false} RenamedNames(r: Ref, name: string)
    requires r.isService
    ensures Names(r.(name := name), name)
  {
  }

  lemma {:induction false} LastRuleTakes(c: Config, front: seq<Rule>, last: Rule, matches: seq<Match>, q: Request)
    requires PathsLast(matches) && forall m :: m in matches ==> m.other == ""
    requires Has(last.refs, c.stable) && !Has(last.refs, c.canary)
    ensures Takes(Canaries(c, front + [last], matches), q)
            <==> || Takes(Canaries(c, front, matches), q)
                 || (!HasStable(c, front) && Wanted(matches, true, q))
                 || (HoldsAny(last.matches, q) && Wanted(matches, false, q))
    ensures forall r :: r in Canaries(c, front + [last], matches) ==>
              r in Canaries(c, front, matches) || (|r.refs| == 1 && Names(r.refs[0], c.canary))
  {
    var rules := front + [last];
    assert rules[..|rules| - 1] == front;
    var paths := if HasStable(c, front) then [] else WithPath(matches);
    var rule := Rule(paths + Products(last.matches, Taken(matches)), [RefOf(last.refs, c.stable).(name := c.canary)], last.other);
    NewRuleTakes(last, matches, paths, q);
    WithPathHolds(matches, q);
    TakenAreRight(matches);
    NothingHolds(q);
    RenamedNames(RefOf(last.refs, c.stable), c.canary);
    TakesMore(Canaries(c, front, matches), rule, q);
    hide Holds, HoldsAny, Takes, HasStable, Wanted, Products, WithPath, Names, PathsLast, Taken, Has;
  }

  /** The canary rules of a header rewrite take just the requests that one of the path
      matches asks for, or that one of the other matches asks for and a rule of the stable
      service takes; and they send them to the canary service only. */
  lemma {:induction false} CanariesTakeWanted(c: Config, rules: seq<Rule>, matches: seq<Match>, q: Request)
    requires PathsLast(matches) && forall m :: m in matches ==> m.other == ""
    ensures Takes(Canaries(c, rules, matches), q)
            <==> (HasStable(c, rules) && Wanted(matches, true, q)) || (FromStable(c, rules, q) && Wanted(matches, false, q))
    ensures forall r :: r in Canaries(c, rules, matches) ==> |r.refs| == 1 && Names(r.refs[0], c.canary)
  {
    if rules != [] {
      var front, last := rules[..|rules| - 1], rules[|rules| - 1];
      assert rules == front + [last];
      CanariesTakeWanted(c, front, matches, q);
      StableSoFar(c, rules, |front|);
      assert rules[..|front| + 1] == rules;
      FromStableMore(c, front, last, q);
      if Has(last.refs, c.stable) && !Has(last.refs, c.canary) {
        LastRuleTakes(c, front, last, matches, q);
        hide Canaries;
      }
      hide Holds, HoldsAny, Takes, FromStable, HasStable, Wanted, Names, PathsLast, Has;
    }
  }

  lemma NothingHolds(q: Request)
    ensures !HoldsAny([], q)
  {
  }

  lemma {:induction false} ProductsNotEmpty(own: seq<Match>, extras: seq<Match>)
    requires own != [] && extras != []
    ensures Products(own, extras) != []
  {
  }

  /** Only the first canary rule has the path matches; every other one has nothing but the
      matches of its stable rule, extended; and if every rule has a match, so has every
      canary rule. */
  lemma {:induction false} PathsOnFirstOnly(c: Config, rules: seq<Rule>, matches: seq<Match>)
    ensures var canaries := Canaries(c, rules, matches);
      && (forall k :: 0 < k < |canaries| ==> exists r :: r in rules && canaries[k].matches == Products(r.matches, Taken(matches)))
      && ((forall r :: r in rules ==> r.matches != []) ==> forall r :: r in canaries ==> r.matches != [])
      && (canaries != [] ==> HasStable(c, rules))
  {
    hide Products, WithPath, Taken, Has;
    if rules != [] {
      var front, last := rules[..|rules| - 1], rules[|rules| - 1];
      assert rules == front + [last] && last in rules && forall r :: r in front ==> r in rules;
      PathsOnFirstOnly(c, front, matches);
      StableSoFar(c, rules, |front|);
      assert rules[..|front| + 1] == rules;
      if Taken(matches) != [] && last.matches != [] {
        ProductsNotEmpty(last.matches, Taken(matches));
      }
      assert [] + Products(last.matches, Taken(matches)) == Products(last.matches, Taken(matches));
    }
  }
}
