/** What a compiled policy allows, in terms of the manifest it came from. */
module PolicyTheorems {
  import opened Common
  import opened PolicyRules
  import opened PolicyMatching

  // ---- The evaluator, without its lists ----

  /** A matching rule that no matching rule outranks. */
  ghost predicate Top(rules: seq<Rule>, t: Target, r: Rule) {
    r in rules && Matches(r, t) && forall s :: s in rules && Matches(s, t) ==> s.specificity <= r.specificity
  }

  ghost predicate Permits(r: Rule, t: Target) { r.effect == Allow && PortFits(r, t) && PathFits(r, t) }

  ghost predicate AllowedBy(rules: seq<Rule>, t: Target) {
    (exists r :: Top(rules, t, r)) && forall r :: Top(rules, t, r) ==> Permits(r, t)
  }

  lemma {:induction false} MatchingMembers(rules: seq<Rule>, t: Target, r: Rule)
    ensures r in Matching(rules, t) <==> r in rules && Matches(r, t)
  {
    if rules != [] {
      MatchingMembers(rules[1..], t, r);
      assert rules == [rules[0]] + rules[1..];
    }
  }

  lemma {:induction false} AtLeastMembers(rules: seq<Rule>, bound: int, r: Rule)
    ensures r in AtLeast(rules, bound) <==> r in rules && r.specificity >= bound
  {
    if rules != [] {
      AtLeastMembers(rules[1..], bound, r);
      assert rules == [rules[0]] + rules[1..];
    }
  }

  lemma {:induction false} MaxAttained(rules: seq<Rule>)
    requires rules != []
    ensures exists r :: r in rules && r.specificity == MaxSpecificity(rules)
    ensures forall r :: r in rules ==> r.specificity <= MaxSpecificity(rules)
  {
    assert rules == [rules[0]] + rules[1..];
    if |rules| == 1 {
      assert rules[0] in rules;
    } else {
      MaxAttained(rules[1..]);
      var r :| r in rules[1..] && r.specificity == MaxSpecificity(rules[1..]);
      assert r in rules && rules[0] in rules;
    }
  }

  lemma ApplicableAreTop(rules: seq<Rule>, t: Target)
    ensures forall r :: r in Applicable(rules, t) <==> Top(rules, t, r)
    ensures Matching(rules, t) != [] <==> exists r :: Top(rules, t, r)
  {
    var matches := Matching(rules, t);
    forall r ensures r in matches <==> r in rules && Matches(r, t) { MatchingMembers(rules, t, r); }
    if matches != [] {
      MaxAttained(matches);
      forall r ensures r in Applicable(rules, t) <==> Top(rules, t, r) { AtLeastMembers(matches, MaxSpecificity(matches), r); }
      var r :| r in matches && r.specificity == MaxSpecificity(matches);
      assert Top(rules, t, r);
    } else {
      forall r ensures !Top(rules, t, r) { assert r !in matches; }
    }
  }

  lemma {:induction false} ConstrainMeaning(rules: seq<Rule>, t: Target)
    ensures Constrain(rules, t) == ExplicitAllow <==> forall r :: r in rules ==> PortFits(r, t) && PathFits(r, t)
    ensures Constrain(rules, t) in {ExplicitAllow, PortDenied, PathDenied}
    ensures Constrain(rules, t) == PortDenied ==> exists r :: r in rules && !PortFits(r, t)
    ensures Constrain(rules, t) == PathDenied ==> exists r :: r in rules && PortFits(r, t) && !PathFits(r, t)
  {
    if rules != [] {
      ConstrainMeaning(rules[1..], t);
      assert rules == [rules[0]] + rules[1..];
      assert rules[0] in rules;
      assert forall r :: r in rules[1..] ==> r in rules;
    }
  }

  lemma AnyEffectMeaning(rules: seq<Rule>, e: Effect)
    ensures AnyEffect(rules, e) <==> exists r :: r in rules && r.effect == e
  {
    if r :| r in rules && r.effect == e { var i :| 0 <= i < |rules| && rules[i] == r; }
  }

  /** Each verdict in terms of the top rules. */
  lemma VerdictMeaning(rules: seq<Rule>, t: Target)
    ensures var v := Evaluate(rules, t);
      && (v == OutOfScope <==> !exists r :: Top(rules, t, r))
      && (v == ExplicitDeny <==> exists r :: Top(rules, t, r) && r.effect == Deny)
      && (v == DefaultDeny <==> (exists r :: Top(rules, t, r) && r.effect == OtherEffect) && !exists r :: Top(rules, t, r) && r.effect == Deny)
      && (v == ExplicitAllow <==> AllowedBy(rules, t))
  {
    ApplicableAreTop(rules, t);
    var applicable := Applicable(rules, t);
    AnyEffectMeaning(applicable, Deny);
    AnyEffectMeaning(applicable, OtherEffect);
    ConstrainMeaning(applicable, t);
  }

  // ---- The order of rules ----

  lemma SameMembers(rules: seq<Rule>, rules': seq<Rule>)
    requires multiset(rules) == multiset(rules')
    ensures forall r :: r in rules <==> r in rules'
  {
    forall r ensures r in rules <==> r in rules' { assert r in rules <==> r in multiset(rules); assert r in rules' <==> r in multiset(rules'); }
  }

  lemma SameTop(rules: seq<Rule>, rules': seq<Rule>, t: Target)
    requires forall r :: r in rules <==> r in rules'
    ensures forall r :: Top(rules, t, r) <==> Top(rules', t, r)
  {
  }

  /** Whether a target is allowed depends only on which rules there are. */
  lemma OutcomeIgnoresOrder(rules: seq<Rule>, rules': seq<Rule>, t: Target)
    requires forall r :: r in rules <==> r in rules'
    ensures Evaluate(rules, t) == ExplicitAllow <==> Evaluate(rules', t) == ExplicitAllow
  {
    VerdictMeaning(rules, t);
    VerdictMeaning(rules', t);
    SameTop(rules, rules', t);
  }

  /** Every top rule allows, but one excludes the port and another only the path. */
  ghost predicate Contested(rules: seq<Rule>, t: Target) {
    && (forall r :: Top(rules, t, r) ==> r.effect == Allow)
    && (exists r :: Top(rules, t, r) && !PortFits(r, t))
    && (exists r :: Top(rules, t, r) && PortFits(r, t) && !PathFits(r, t))
  }

  /** Two lists of the same rules give one reason when they cannot fail in both ways. */
  lemma SameReason(a: seq<Rule>, b: seq<Rule>, t: Target)
    requires forall r :: r in a <==> r in b
    requires !((exists r :: r in a && !PortFits(r, t)) && (exists r :: r in a && PortFits(r, t) && !PathFits(r, t)))
    ensures Constrain(a, t) == Constrain(b, t)
  {
    ConstrainMeaning(a, t);
    ConstrainMeaning(b, t);
  }

  lemma UncontestedReason(rules: seq<Rule>, rules': seq<Rule>, t: Target)
    requires multiset(rules) == multiset(rules') && !Contested(rules, t)
    ensures Evaluate(rules', t) == Evaluate(rules, t)
  {
    SameMembers(rules, rules');
    SameTop(rules, rules', t);
    ApplicableAreTop(rules, t);
    ApplicableAreTop(rules', t);
    var a, b := Applicable(rules, t), Applicable(rules', t);
    AnyEffectMeaning(a, Deny);
    AnyEffectMeaning(b, Deny);
    AnyEffectMeaning(a, OtherEffect);
    AnyEffectMeaning(b, OtherEffect);
    if forall r :: Top(rules, t, r) ==> r.effect == Allow { SameReason(a, b, t); }
  }

  lemma FrontDecides(rules: seq<Rule>, t: Target)
    requires rules != [] && Top(rules, t, rules[0]) && forall r :: Top(rules, t, r) ==> r.effect == Allow
    requires !PortFits(rules[0], t) || !PathFits(rules[0], t)
    ensures Evaluate(rules, t) == if PortFits(rules[0], t) then PathDenied else PortDenied
  {
    ApplicableAreTop(rules, t);
    var matches := Matching(rules, t);
    MaxAttained(matches);
    assert matches[0] == rules[0];
    assert rules[0].specificity >= MaxSpecificity(matches) by {
      var r :| r in matches && r.specificity == MaxSpecificity(matches);
      MatchingMembers(rules, t, r);
    }
    assert Applicable(rules, t)[0] == rules[0];
    AnyEffectMeaning(Applicable(rules, t), Deny);
    AnyEffectMeaning(Applicable(rules, t), OtherEffect);
  }

  function ToFront(rules: seq<Rule>, i: nat): seq<Rule>
    requires i < |rules|
  {
    [rules[i]] + rules[..i] + rules[i + 1..]
  }

  lemma ToFrontPermutes(rules: seq<Rule>, i: nat)
    requires i < |rules|
    ensures multiset(ToFront(rules, i)) == multiset(rules)
  {
    assert rules == rules[..i] + [rules[i]] + rules[i + 1..];
  }

  lemma FrontVerdict(rules: seq<Rule>, t: Target, r: Rule) returns (rules': seq<Rule>)
    requires Top(rules, t, r) && (forall s :: Top(rules, t, s) ==> s.effect == Allow) && (!PortFits(r, t) || !PathFits(r, t))
    ensures multiset(rules') == multiset(rules) && Evaluate(rules', t) == if PortFits(r, t) then PathDenied else PortDenied
  {
    var i :| 0 <= i < |rules| && rules[i] == r;
    rules' := ToFront(rules, i);
    ToFrontPermutes(rules, i);
    SameMembers(rules, rules');
    SameTop(rules, rules', t);
    FrontDecides(rules', t);
  }

  ghost predicate Reordered(rules: seq<Rule>, rules': seq<Rule>) { multiset(rules') == multiset(rules) }

  /** The reason reported is the same under every order of the rules unless the top rules are contested. */
  lemma ReasonIgnoresOrderIff(rules: seq<Rule>, t: Target)
    ensures (forall rules' :: Reordered(rules, rules') ==> Evaluate(rules', t) == Evaluate(rules, t)) <==> !Contested(rules, t)
  {
    if Contested(rules, t) {
      var p :| Top(rules, t, p) && !PortFits(p, t);
      var q :| Top(rules, t, q) && PortFits(q, t) && !PathFits(q, t);
      var first := FrontVerdict(rules, t, p);
      var second := FrontVerdict(rules, t, q);
      assert Reordered(rules, first) && Reordered(rules, second);
    } else {
      forall rules' | Reordered(rules, rules') ensures Evaluate(rules', t) == Evaluate(rules, t) {
        UncontestedReason(rules, rules', t);
      }
    }
  }

  // ---- Compiled rules ----

  ghost predicate FromAsset(a: Asset, r: Rule) {
    r == BaseRule(a) || (r.id.PathDeny? && r.id.path in a.deniedPaths && r == DeniedPathRule(a, r.id.path))
  }

  lemma RulesOfMembers(a: Asset, r: Rule)
    ensures r in RulesOf(a) <==> FromAsset(a, r)
    ensures RulesOf(a)[r] <= 1
  {
    if r in DeniedRules(a, a.deniedPaths) {
      var p :| p in a.deniedPaths && r == DeniedPathRule(a, p);
    }
  }

  ghost predicate FromSome(assets: seq<Asset>, r: Rule) { exists i :: 0 <= i < |assets| && FromAsset(assets[i], r) }

  lemma FromSomeSnoc(assets: seq<Asset>, r: Rule)
    requires assets != []
    ensures FromSome(assets, r) <==> FromSome(assets[..|assets| - 1], r) || FromAsset(assets[|assets| - 1], r)
  {
    var init := assets[..|assets| - 1];
    assert forall i :: 0 <= i < |init| ==> init[i] == assets[i];
    if FromSome(init, r) {
      var i :| 0 <= i < |init| && FromAsset(init[i], r);
      assert FromAsset(assets[i], r);
    }
    if FromSome(assets, r) {
      var i :| 0 <= i < |assets| && FromAsset(assets[i], r);
      assert i < |init| ==> FromAsset(init[i], r);
    }
  }

  lemma {:induction false} AllRulesFrom(assets: seq<Asset>, r: Rule)
    ensures r in AllRules(assets) <==> FromSome(assets, r)
  {
    if assets != [] {
      AllRulesFrom(assets[..|assets| - 1], r);
      RulesOfMembers(assets[|assets| - 1], r);
      FromSomeSnoc(assets, r);
    }
  }

  lemma AllRulesMembers(assets: seq<Asset>, r: Rule)
    ensures r in AllRules(assets) <==> exists i :: 0 <= i < |assets| && FromAsset(assets[i], r)
  {
    AllRulesFrom(assets, r);
  }

  // ---- Meaning of a manifest ----

  ghost predicate Covers(a: Asset, t: Target) { Names(a.matcher, t) }

  ghost predicate Grants(a: Asset, t: Target) {
    && a.effect == Allow && (a.ports == {} || t.port in a.ports)
    && (a.allowedPaths == {} || exists p :: p in a.allowedPaths && Within(p, t.path))
  }

  /** Asset `b` does not stand in the way of `a`: it is less specific, or as specific and granting, and its denied paths rank lower. */
  ghost predicate Yields(a: Asset, b: Asset, t: Target) {
    && Specificity(b.matcher) <= Specificity(a.matcher)
    && (Specificity(b.matcher) == Specificity(a.matcher) ==> Grants(b, t))
    && forall p :: p in b.deniedPaths && Within(p, t.path) ==> Specificity(b.matcher) + 100 + |p| < Specificity(a.matcher)
  }

  ghost predicate Decisive(assets: seq<Asset>, a: Asset, t: Target) {
    a in assets && Covers(a, t) && forall b :: b in assets && Covers(b, t) ==> Yields(a, b, t)
  }

  ghost predicate Authorized(assets: seq<Asset>, t: Target) { exists a :: Decisive(assets, a, t) }

  ghost predicate CompiledFrom(rules: seq<Rule>, assets: seq<Asset>) { multiset(rules) == AllRules(assets) }

  lemma CompiledRule(rules: seq<Rule>, assets: seq<Asset>, r: Rule)
    requires CompiledFrom(rules, assets)
    ensures r in rules <==> exists a :: a in assets && FromAsset(a, r)
  {
    AllRulesMembers(assets, r);
    assert r in rules <==> r in multiset(rules);
    if a :| a in assets && FromAsset(a, r) { var i :| 0 <= i < |assets| && assets[i] == a; }
  }

  lemma DecisiveAllows(rules: seq<Rule>, assets: seq<Asset>, t: Target, a: Asset)
    requires CompiledFrom(rules, assets) && Decisive(assets, a, t)
    ensures AllowedBy(rules, t)
  {
    Meanings(t);
    CompiledRule(rules, assets, BaseRule(a));
    forall r | r in rules && Matches(r, t)
      ensures r.specificity < Specificity(a.matcher) || (r.specificity == Specificity(a.matcher) && Permits(r, t))
    {
      CompiledRule(rules, assets, r);
      var b :| b in assets && FromAsset(b, r);
      assert Yields(a, b, t);
    }
    assert Top(rules, t, BaseRule(a));
  }

  lemma AllowsDecisive(rules: seq<Rule>, assets: seq<Asset>, t: Target)
    requires CompiledFrom(rules, assets) && AllowedBy(rules, t)
    ensures Authorized(assets, t)
  {
    Meanings(t);
    var r :| Top(rules, t, r);
    CompiledRule(rules, assets, r);
    var a :| a in assets && FromAsset(a, r);
    assert Permits(r, t);
    assert r == BaseRule(a);
    forall b | b in assets && Covers(b, t)
      ensures Yields(a, b, t)
    {
      CompiledRule(rules, assets, BaseRule(b));
      assert Matches(BaseRule(b), t);
      if Specificity(b.matcher) == Specificity(a.matcher) { assert Top(rules, t, BaseRule(b)); }
      forall p | p in b.deniedPaths && Within(p, t.path)
        ensures Specificity(b.matcher) + 100 + |p| < Specificity(a.matcher)
      {
        CompiledRule(rules, assets, DeniedPathRule(b, p));
        assert FromAsset(b, DeniedPathRule(b, p));
        assert Matches(DeniedPathRule(b, p), t);
        assert !Permits(DeniedPathRule(b, p), t);
        assert !Top(rules, t, DeniedPathRule(b, p));
      }
    }
    assert Decisive(assets, a, t);
  }

  /** A compiled policy allows a target exactly when the manifest authorizes it. */
  lemma CompiledDecision(rules: seq<Rule>, assets: seq<Asset>, t: Target)
    requires CompiledFrom(rules, assets)
    ensures Evaluate(rules, t) == ExplicitAllow <==> Authorized(assets, t)
  {
    VerdictMeaning(rules, t);
    if AllowedBy(rules, t) { AllowsDecisive(rules, assets, t); }
    if Authorized(assets, t) {
      var a :| Decisive(assets, a, t);
      DecisiveAllows(rules, assets, t, a);
    }
  }

  ghost predicate Owed(rules: seq<Rule>, a: Asset, t: Target) {
    && a.effect == Allow && Covers(a, t) && t.port in a.ports
    && (a.allowedPaths == {} || exists p :: p in a.allowedPaths && Within(p, t.path))
    && (forall p :: p in a.deniedPaths ==> !Within(p, t.path))
    && (forall r :: r in rules && Concerns(r, t) && r.effect == Deny ==> r.specificity < Specificity(a.matcher))
  }

  /**
   * What an allowed target is owed: an allow asset of the manifest covers it, on a listed port (a
   * valid manifest lists the ports of every allow asset), inside an allowed path if any are listed,
   * outside the asset's denied paths, with no matching deny rule of equal or higher specificity.
   */
  lemma AllowedMeans(rules: seq<Rule>, assets: seq<Asset>, t: Target)
    requires CompiledFrom(rules, assets) && Evaluate(rules, t) == ExplicitAllow
    requires forall a :: a in assets && a.effect == Allow ==> a.ports != {}
    ensures exists a :: a in assets && Owed(rules, a, t)
  {
    CompiledDecision(rules, assets, t);
    var a :| Decisive(assets, a, t);
    assert Yields(a, a, t);
    forall r | r in rules && Concerns(r, t) && r.effect == Deny
      ensures r.specificity < Specificity(a.matcher)
    {
      CompiledRule(rules, assets, r);
      var b :| b in assets && FromAsset(b, r);
      assert Yields(a, b, t);
    }
  }

  // ---- Denying more never allows more ----

  /** Adding an asset that does not allow, anywhere in the manifest. */
  lemma DenyAssetMonotone(assets: seq<Asset>, k: nat, d: Asset, t: Target)
    requires k <= |assets| && d.effect != Allow && Authorized(assets[..k] + [d] + assets[k..], t)
    ensures Authorized(assets, t)
  {
    var more := assets[..k] + [d] + assets[k..];
    var a :| Decisive(more, a, t);
    assert Yields(a, a, t);
    assert forall b :: b in more ==> b == d || b in assets[..k] || b in assets[k..];
    assert a in assets;
    forall b | b in assets && Covers(b, t) ensures Yields(a, b, t) {
      assert assets == assets[..k] + assets[k..];
      assert b in more;
    }
    assert Decisive(assets, a, t);
  }

  /** Adding a denied path to any asset. */
  lemma DeniedPathMonotone(assets: seq<Asset>, k: nat, path: string, t: Target)
    requires k < |assets| && Authorized(assets[k := assets[k].(deniedPaths := assets[k].deniedPaths + {path})], t)
    ensures Authorized(assets, t)
  {
    var less := assets[k].(deniedPaths := assets[k].deniedPaths + {path});
    var more := assets[k := less];
    var a :| Decisive(more, a, t);
    var i :| 0 <= i < |more| && more[i] == a;
    forall b | b in assets && Covers(b, t) ensures Yields(assets[i], b, t) {
      var j :| 0 <= j < |assets| && assets[j] == b;
      assert more[j] in more && Covers(more[j], t);
      assert Yields(a, more[j], t);
    }
    assert Decisive(assets, assets[i], t);
  }

  // ---- The order of assets ----

  ghost predicate UniqueIds(assets: seq<Asset>) {
    forall i, j :: 0 <= i < j < |assets| ==> assets[i].id != assets[j].id
  }

  lemma AllRulesSnoc(assets: seq<Asset>, a: Asset)
    ensures AllRules(assets + [a]) == AllRules(assets) + RulesOf(a)
  {
    assert (assets + [a])[..|assets|] == assets;
  }

  function RemoveAt(assets: seq<Asset>, k: nat): seq<Asset>
    requires k < |assets|
  {
    assets[..k] + assets[k + 1..]
  }

  lemma RemoveBeforeLast(init: seq<Asset>, last: Asset, k: nat)
    requires k < |init|
    ensures RemoveAt(init + [last], k) == RemoveAt(init, k) + [last]
  {
  }

  lemma RemoveLast(init: seq<Asset>, last: Asset)
    ensures RemoveAt(init + [last], |init|) == init
  {
  }

  lemma BagSwap(x: multiset<Rule>, y: multiset<Rule>, z: multiset<Rule>)
    ensures x + y + z == x + z + y
  {
  }

  /** One turn: the bag of `init` loses the asset at `k`, the last one is added to both sides. */
  lemma TakeBeforeLast(init: seq<Asset>, last: Asset, k: nat)
    requires k < |init| && AllRules(init) == AllRules(RemoveAt(init, k)) + RulesOf(init[k])
    ensures AllRules(init + [last]) == AllRules(RemoveAt(init, k) + [last]) + RulesOf(init[k])
  {
    AllRulesSnoc(init, last);
    AllRulesSnoc(RemoveAt(init, k), last);
    BagSwap(AllRules(RemoveAt(init, k)), RulesOf(init[k]), RulesOf(last));
  }

  lemma {:induction false} AllRulesTake(init: seq<Asset>, last: Asset, k: nat)
    requires k <= |init|
    ensures AllRules(init + [last]) == AllRules(RemoveAt(init + [last], k)) + RulesOf((init + [last])[k])
    decreases |init|
  {
    if k < |init| {
      var n := |init| - 1;
      assert init == init[..n] + [init[n]];
      AllRulesTake(init[..n], init[n], k);
      TakeBeforeLast(init, last, k);
      RemoveBeforeLast(init, last, k);
      assert (init + [last])[k] == init[k];
    } else {
      AllRulesSnoc(init, last);
      RemoveLast(init, last);
    }
  }

  lemma RemainderPermutes(assets: seq<Asset>, assets': seq<Asset>, k: nat)
    requires multiset(assets) == multiset(assets') && assets != [] && k < |assets'| && assets'[k] == assets[|assets| - 1]
    ensures multiset(assets[..|assets| - 1]) == multiset(RemoveAt(assets', k))
  {
    var n := |assets| - 1;
    assert assets == assets[..n] + [assets[n]];
    assert assets' == assets'[..k] + [assets'[k]] + assets'[k + 1..];
    assert multiset(assets[..n]) == multiset(assets) - multiset{assets[n]};
    assert multiset(assets'[..k] + assets'[k + 1..]) == multiset(assets') - multiset{assets[n]};
  }

  lemma {:induction false} AllRulesPermuted(assets: seq<Asset>, assets': seq<Asset>)
    requires multiset(assets) == multiset(assets')
    ensures AllRules(assets) == AllRules(assets')
  {
    if assets == [] {
      assert |multiset(assets')| == 0;
      assert assets' == [];
    } else {
      var n := |assets| - 1;
      assert assets[n] in multiset(assets) && assets[n] in multiset(assets');
      var k :| 0 <= k < |assets'| && assets'[k] == assets[n];
      RemainderPermutes(assets, assets', k);
      var m := |assets'| - 1;
      assert assets' == assets'[..m] + [assets'[m]];
      AllRulesTake(assets'[..m], assets'[m], k);
      AllRulesPermuted(assets[..n], RemoveAt(assets', k));
    }
  }

  /** With unique asset identifiers, a rule identifier names one rule, which occurs once. */
  lemma {:induction false} RuleOccursOnce(assets: seq<Asset>, r: Rule)
    requires UniqueIds(assets)
    ensures AllRules(assets)[r] <= 1
  {
    if assets != [] {
      var n := |assets| - 1;
      RuleOccursOnce(assets[..n], r);
      RulesOfMembers(assets[n], r);
      AllRulesMembers(assets[..n], r);
      if r in RulesOf(assets[n]) {
        forall i | 0 <= i < n ensures !FromAsset(assets[..n][i], r) { assert assets[i].id != assets[n].id; }
      }
    }
  }

  lemma RuleNamed(assets: seq<Asset>, r: Rule, s: Rule)
    requires UniqueIds(assets) && r in AllRules(assets) && s in AllRules(assets) && r.id == s.id
    ensures r == s
  {
    AllRulesMembers(assets, r);
    AllRulesMembers(assets, s);
    var i :| 0 <= i < |assets| && FromAsset(assets[i], r);
    var j :| 0 <= j < |assets| && FromAsset(assets[j], s);
    assert assets[i].id == assets[j].id;
    assert i == j;
  }

  ghost predicate StrictlyInOrder(rules: seq<Rule>, order: Order) {
    forall i, j :: 0 <= i < j < |rules| ==> order(rules[i].id) < order(rules[j].id)
  }

  lemma TwiceCounts(rules: seq<Rule>, i: nat, j: nat)
    requires i < j < |rules| && rules[i] == rules[j]
    ensures multiset(rules)[rules[i]] >= 2
  {
    assert rules == rules[..j] + [rules[j]] + rules[j + 1..];
    assert rules[i] in rules[..j];
  }

  lemma CompiledStrict(rules: seq<Rule>, assets: seq<Asset>, order: Order)
    requires CompiledFrom(rules, assets) && UniqueIds(assets) && Injective(order) && InOrder(rules, order)
    ensures StrictlyInOrder(rules, order)
  {
    forall i, j | 0 <= i < j < |rules| ensures order(rules[i].id) != order(rules[j].id) {
      assert rules[i] in multiset(rules) && rules[j] in multiset(rules);
      if order(rules[i].id) == order(rules[j].id) {
        RuleNamed(assets, rules[i], rules[j]);
        TwiceCounts(rules, i, j);
        RuleOccursOnce(assets, rules[i]);
      }
    }
  }

  /** The least rule comes first in both lists. */
  lemma StrictHead(rules: seq<Rule>, rules': seq<Rule>, order: Order)
    requires StrictlyInOrder(rules, order) && StrictlyInOrder(rules', order) && rules != [] && rules' != []
    requires rules[0] in rules' && rules'[0] in rules
    ensures rules[0] == rules'[0]
  {
    var i :| 0 <= i < |rules'| && rules'[i] == rules[0];
    var j :| 0 <= j < |rules| && rules[j] == rules'[0];
  }

  lemma TailBag(rules: seq<Rule>)
    requires rules != []
    ensures multiset(rules[1..]) == multiset(rules) - multiset{rules[0]}
  {
    assert rules == [rules[0]] + rules[1..];
  }

  lemma TailsPermute(rules: seq<Rule>, rules': seq<Rule>, order: Order)
    requires StrictlyInOrder(rules, order) && StrictlyInOrder(rules', order) && multiset(rules) == multiset(rules')
    requires rules != [] && rules' != []
    ensures rules[0] == rules'[0] && multiset(rules[1..]) == multiset(rules'[1..])
  {
    SameMembers(rules, rules');
    StrictHead(rules, rules', order);
    TailBag(rules);
    TailBag(rules');
  }

  lemma StrictTail(rules: seq<Rule>, order: Order)
    requires StrictlyInOrder(rules, order) && rules != []
    ensures StrictlyInOrder(rules[1..], order)
  {
  }

  lemma SameSize(rules: seq<Rule>, rules': seq<Rule>)
    requires multiset(rules) == multiset(rules')
    ensures |rules| == |rules'|
  {
    assert |multiset(rules)| == |rules| && |multiset(rules')| == |rules'|;
  }

  lemma {:induction false} StrictUnique(rules: seq<Rule>, rules': seq<Rule>, order: Order)
    requires StrictlyInOrder(rules, order) && StrictlyInOrder(rules', order) && multiset(rules) == multiset(rules')
    ensures rules == rules'
    decreases |rules|
  {
    SameSize(rules, rules');
    if rules != [] {
      TailsPermute(rules, rules', order);
      StrictTail(rules, order);
      StrictTail(rules', order);
      StrictUnique(rules[1..], rules'[1..], order);
      assert rules == [rules[0]] + rules[1..] && rules' == [rules'[0]] + rules'[1..];
    }
  }

  /** Permuting the assets of a valid manifest yields the same list of rules. */
  lemma AssetOrderIrrelevant(rules: seq<Rule>, rules': seq<Rule>, assets: seq<Asset>, assets': seq<Asset>, order: Order)
    requires UniqueIds(assets) && UniqueIds(assets') && multiset(assets) == multiset(assets') && Injective(order)
    requires CompiledFrom(rules, assets) && InOrder(rules, order) && CompiledFrom(rules', assets') && InOrder(rules', order)
    ensures rules == rules'
  {
    AllRulesPermuted(assets, assets');
    CompiledStrict(rules, assets, order);
    CompiledStrict(rules', assets', order);
    StrictUnique(rules, rules', order);
  }
}
