/**
 * The policy compiler turns manifest assets into ranked rules; the evaluator lets the most specific
 * matching rules decide, and any deny among them wins.
 */
module PolicyRules {
  import opened Common

  // ---- Targets ----

  datatype Family = Ipv4 | Ipv6

  /** Addresses are numbers of 32 or 128 bits. */
  datatype Host = Domain(name: string) | Address(family: Family, bits: nat)

  datatype Target = Target(scheme: string, host: Host, port: int, path: string)

  // ---- Assets of a manifest ----

  datatype Matcher =
    | Url(scheme: string, host: Host, port: int, path: string)
    | DomainName(name: string)
    | Wildcard(base: string, includeApex: bool)
    | SingleAddress(family: Family, bits: nat)
    | Cidr(family: Family, network: nat, prefix: nat)

  datatype Effect = Allow | Deny | OtherEffect

  datatype Asset = Asset(id: nat, effect: Effect, matcher: Matcher, ports: set<int>, allowedPaths: set<string>, deniedPaths: set<string>)

  // ---- Rules ----

  datatype Seed = Seed(asset: nat, effect: Effect, matcher: Matcher)

  /** Stable identifiers are hashes of these values, taken to be injective. */
  datatype RuleId = AssetRule(seed: Seed) | PathDeny(parent: Seed, path: string)

  datatype Rule = Rule(id: RuleId, effect: Effect, matcher: Matcher, pathPrefix: Option<string>, specificity: int,
                       ports: set<int>, paths: set<string>)

  // ---- Compilation ----

  function Labels(name: string): nat {
    if name == "" then 1 else Labels(name[1..]) + if name[0] == '.' then 1 else 0
  }

  function Specificity(m: Matcher): int {
    match m
    case Url(_, _, _, path) => 5000 + |path|
    case DomainName(name) => 4000 + Labels(name)
    case Wildcard(base, _) => 3000 + Labels(base)
    case Cidr(_, _, prefix) => 2000 + prefix
    case SingleAddress(_, _) => 4000
  }

  function SeedOf(a: Asset): Seed { Seed(a.id, a.effect, a.matcher) }

  function BaseRule(a: Asset): Rule {
    Rule(AssetRule(SeedOf(a)), a.effect, a.matcher, None, Specificity(a.matcher), a.ports, a.allowedPaths)
  }

  function DeniedPathRule(a: Asset, path: string): Rule {
    Rule(PathDeny(SeedOf(a), path), Deny, a.matcher, Some(path), Specificity(a.matcher) + 100 + |path|, a.ports, {path})
  }

  /** Identifiers are compared through their hash, a number. */
  type Order = RuleId -> nat

  ghost predicate Injective(order: Order) { forall i, j :: order(i) == order(j) ==> i == j }

  function Insert(r: Rule, sorted: seq<Rule>, order: Order): seq<Rule> {
    if sorted == [] || order(r.id) <= order(sorted[0].id) then [r] + sorted
    else [sorted[0]] + Insert(r, sorted[1..], order)
  }

  function SortById(rules: seq<Rule>, order: Order): seq<Rule> {
    if rules == [] then [] else Insert(rules[0], SortById(rules[1..], order), order)
  }

  datatype CompilationError = AuthorizationAmbiguous | ScopeEmpty

  ghost function DeniedRules(a: Asset, paths: set<string>): set<Rule> { set p | p in paths :: DeniedPathRule(a, p) }

  /** The rules of one asset. */
  ghost function RulesOf(a: Asset): multiset<Rule> { multiset{BaseRule(a)} + multiset(DeniedRules(a, a.deniedPaths)) }

  ghost function AllRules(assets: seq<Asset>): multiset<Rule> {
    if assets == [] then multiset{} else AllRules(assets[..|assets| - 1]) + RulesOf(assets[|assets| - 1])
  }

  predicate SomeAllow(assets: seq<Asset>) { exists i :: 0 <= i < |assets| && assets[i].effect == Allow }

  /** Appends the rules asset by asset, then sorts them by identifier. */
  method CompileManifest(assets: seq<Asset>, unresolved: bool, order: Order) returns (r: Result<seq<Rule>, CompilationError>)
    ensures r.Ok? <==> !unresolved && SomeAllow(assets)
    ensures r.Ok? ==> multiset(r.value) == AllRules(assets) && InOrder(r.value, order)
    ensures r.Err? ==> r.error == if unresolved then AuthorizationAmbiguous else ScopeEmpty
  {
    if unresolved { return Err(AuthorizationAmbiguous); }
    if !SomeAllow(assets) { return Err(ScopeEmpty); }
    var rules: seq<Rule> := [];
    for i := 0 to |assets|
      invariant multiset(rules) == AllRules(assets[..i])
    {
      assert assets[..i + 1][..i] == assets[..i];
      rules := AppendRules(rules, assets[i]);
    }
    assert assets[..|assets|] == assets;
    SortKeeps(rules, order);
    return Ok(SortById(rules, order));
  }

  method AppendRules(rules: seq<Rule>, asset: Asset) returns (r: seq<Rule>)
    ensures multiset(r) == multiset(rules) + RulesOf(asset)
  {
    r := rules + [BaseRule(asset)];
    var todo := asset.deniedPaths;
    ghost var done: set<string> := {};
    while todo != {}
      invariant todo !! done && todo + done == asset.deniedPaths
      invariant multiset(r) == multiset(rules) + multiset{BaseRule(asset)} + multiset(DeniedRules(asset, done))
      decreases todo
    {
      var path :| path in todo;
      AddDenied(asset, done, path);
      r := r + [DeniedPathRule(asset, path)];
      todo, done := todo - {path}, done + {path};
    }
    assert done == asset.deniedPaths;
  }

  lemma AddDenied(a: Asset, done: set<string>, path: string)
    requires path !in done
    ensures multiset(DeniedRules(a, done + {path})) == multiset(DeniedRules(a, done)) + multiset{DeniedPathRule(a, path)}
  {
    assert DeniedRules(a, done + {path}) == DeniedRules(a, done) + {DeniedPathRule(a, path)};
    assert DeniedPathRule(a, path) !in DeniedRules(a, done);
  }

  ghost predicate InOrder(rules: seq<Rule>, order: Order) {
    forall i, j :: 0 <= i < j < |rules| ==> order(rules[i].id) <= order(rules[j].id)
  }

  lemma {:induction false} InsertBag(r: Rule, sorted: seq<Rule>, order: Order)
    ensures multiset(Insert(r, sorted, order)) == multiset(sorted) + multiset{r}
  {
    if sorted != [] && order(r.id) > order(sorted[0].id) {
      InsertBag(r, sorted[1..], order);
      assert sorted == [sorted[0]] + sorted[1..];
    }
  }

  lemma {:induction false} InsertMembers(r: Rule, sorted: seq<Rule>, order: Order, x: Rule)
    requires x in Insert(r, sorted, order)
    ensures x == r || x in sorted
  {
    if sorted != [] && order(r.id) > order(sorted[0].id) && x != sorted[0] {
      InsertMembers(r, sorted[1..], order, x);
    }
  }

  lemma OrderedCons(head: Rule, tail: seq<Rule>, order: Order)
    requires InOrder(tail, order) && forall x :: x in tail ==> order(head.id) <= order(x.id)
    ensures InOrder([head] + tail, order)
  {
    var all := [head] + tail;
    forall i, j | 0 <= i < j < |all| ensures order(all[i].id) <= order(all[j].id) {
      assert all[j] == tail[j - 1] && all[j] in tail;
      if i > 0 { assert all[i] == tail[i - 1]; }
    }
  }

  lemma {:induction false} InsertKeeps(r: Rule, sorted: seq<Rule>, order: Order)
    requires InOrder(sorted, order)
    ensures InOrder(Insert(r, sorted, order), order)
  {
    if sorted == [] {
    } else if order(r.id) <= order(sorted[0].id) {
      forall x | x in sorted ensures order(r.id) <= order(x.id) { var i :| 0 <= i < |sorted| && sorted[i] == x; }
      OrderedCons(r, sorted, order);
    } else {
      var tail := Insert(r, sorted[1..], order);
      InsertKeeps(r, sorted[1..], order);
      forall x | x in tail ensures order(sorted[0].id) <= order(x.id) {
        InsertMembers(r, sorted[1..], order, x);
        if x != r { var i :| 0 < i < |sorted| && sorted[i] == x; }
      }
      OrderedCons(sorted[0], tail, order);
    }
  }

  lemma {:induction false} SortKeeps(rules: seq<Rule>, order: Order)
    ensures InOrder(SortById(rules, order), order) && multiset(SortById(rules, order)) == multiset(rules)
  {
    if rules != [] {
      SortKeeps(rules[1..], order);
      InsertKeeps(rules[0], SortById(rules[1..], order), order);
      InsertBag(rules[0], SortById(rules[1..], order), order);
      assert rules == [rules[0]] + rules[1..];
    }
  }

  // ---- Matching ----

  function StripSlashes(s: string): string {
    if s != "" && s[|s| - 1] == '/' then StripSlashes(s[..|s| - 1]) else s
  }

  predicate StartsWith(s: string, prefix: string) { |prefix| <= |s| && s[..|prefix|] == prefix }

  predicate EndsWith(s: string, suffix: string) { |suffix| <= |s| && s[|s| - |suffix|..] == suffix }

  predicate PathMatches(prefix: string, path: string) {
    var stripped := StripSlashes(prefix);
    stripped == "" || stripped == "/" || path == stripped || StartsWith(path, stripped + "/")
  }

  function Width(f: Family): nat { if f == Ipv4 then 32 else 128 }

  function Pow2(n: nat): (p: nat)
    ensures p >= 1
  {
    if n == 0 then 1 else 2 * Pow2(n - 1)
  }

  predicate InNetwork(bits: nat, family: Family, network: nat, prefix: nat) {
    var block := Pow2(if prefix <= Width(family) then Width(family) - prefix else 0);
    bits / block == network / block
  }

  predicate MatcherAdmits(m: Matcher, t: Target) {
    match m
    case Url(scheme, host, port, path) => scheme == t.scheme && host == t.host && port == t.port && PathMatches(path, t.path)
    case DomainName(name) => t.host == Domain(name)
    case Wildcard(base, includeApex) =>
      t.host.Domain? && ((includeApex && t.host.name == base) || EndsWith(t.host.name, "." + base))
    case SingleAddress(family, bits) => t.host == Address(family, bits)
    case Cidr(family, network, prefix) => t.host.Address? && t.host.family == family && InNetwork(t.host.bits, family, network, prefix)
  }

  predicate Matches(r: Rule, t: Target) {
    (r.pathPrefix.Some? ==> PathMatches(r.pathPrefix.value, t.path)) && MatcherAdmits(r.matcher, t)
  }

  // ---- The asset phase of an evaluation ----

  datatype Verdict = OutOfScope | ExplicitDeny | DefaultDeny | PortDenied | PathDenied | ExplicitAllow

  predicate PortFits(r: Rule, t: Target) { r.ports == {} || t.port in r.ports }

  predicate PathFits(r: Rule, t: Target) { r.paths == {} || exists p :: p in r.paths && PathMatches(p, t.path) }

  function Matching(rules: seq<Rule>, t: Target): seq<Rule> {
    if rules == [] then []
    else (if Matches(rules[0], t) then [rules[0]] else []) + Matching(rules[1..], t)
  }

  function MaxSpecificity(rules: seq<Rule>): int
    requires rules != []
  {
    if |rules| == 1 then rules[0].specificity else Max(rules[0].specificity, MaxSpecificity(rules[1..]))
  }

  function AtLeast(rules: seq<Rule>, bound: int): seq<Rule> {
    if rules == [] then []
    else (if rules[0].specificity >= bound then [rules[0]] else []) + AtLeast(rules[1..], bound)
  }

  /** The first rule whose port or path list excludes the target decides the reason. */
  function Constrain(rules: seq<Rule>, t: Target): Verdict {
    if rules == [] then ExplicitAllow
    else if !PortFits(rules[0], t) then PortDenied
    else if !PathFits(rules[0], t) then PathDenied
    else Constrain(rules[1..], t)
  }

  function Applicable(rules: seq<Rule>, t: Target): seq<Rule> {
    var matches := Matching(rules, t);
    if matches == [] then [] else AtLeast(matches, MaxSpecificity(matches))
  }

  predicate AnyEffect(rules: seq<Rule>, e: Effect) { exists i :: 0 <= i < |rules| && rules[i].effect == e }

  function Evaluate(rules: seq<Rule>, t: Target): Verdict {
    if Matching(rules, t) == [] then OutOfScope
    else
      var applicable := Applicable(rules, t);
      if AnyEffect(applicable, Deny) then ExplicitDeny
      else if AnyEffect(applicable, OtherEffect) then DefaultDeny
      else Constrain(applicable, t)
  }
}
