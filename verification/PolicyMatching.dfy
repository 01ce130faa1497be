/** What the matchers of a policy mean: labels of names, segments of paths and bits of addresses. */
module PolicyMatching {
  import opened Common
  import opened PolicyRules

  // ---- Splitting at a separator ----

  /** The pieces between separators; there is always at least one. */
  function Pieces(s: string, sep: char): (pieces: seq<string>)
    ensures |pieces| >= 1
  {
    if s == "" then [""]
    else if s[0] == sep then [""] + Pieces(s[1..], sep)
    else
      var rest := Pieces(s[1..], sep);
      [[s[0]] + rest[0]] + rest[1..]
  }

  function Rejoin(pieces: seq<string>, sep: char): string {
    if pieces == [] then ""
    else if |pieces| == 1 then pieces[0]
    else pieces[0] + [sep] + Rejoin(pieces[1..], sep)
  }

  lemma Prepended(first: string, p: seq<string>, q: seq<string>)
    ensures [first] + (p + q) == [first] + p + q
  {
  }

  lemma FirstApart(p: seq<string>, q: seq<string>)
    requires p != []
    ensures (p + q)[0] == p[0] && (p + q)[1..] == p[1..] + q
  {
  }

  lemma FirstJoins(s: string, a: string, q: seq<string>, sep: char)
    requires a != "" && s != "" && s[0] == a[0] && Pieces(s[1..], sep) == Pieces(a[1..], sep) + q
    ensures Pieces(s, sep) == Pieces(a, sep) + q
  {
    var p := Pieces(a[1..], sep);
    if a[0] == sep {
      Prepended("", p, q);
    } else {
      FirstApart(p, q);
      Prepended([a[0]] + p[0], p[1..], q);
    }
  }

  /** The pieces of two strings put together with a separator are the pieces of both. */
  lemma {:induction false} PiecesConcat(a: string, b: string, sep: char)
    ensures Pieces(a + [sep] + b, sep) == Pieces(a, sep) + Pieces(b, sep)
    decreases |a|
  {
    var s := a + [sep] + b;
    if a == "" {
      assert s[1..] == b;
    } else {
      assert s[1..] == a[1..] + [sep] + b;
      PiecesConcat(a[1..], b, sep);
      FirstJoins(s, a, Pieces(b, sep), sep);
    }
  }

  lemma {:induction false} RejoinPieces(s: string, sep: char)
    ensures Rejoin(Pieces(s, sep), sep) == s
  {
    if s != "" {
      RejoinPieces(s[1..], sep);
      var rest := Pieces(s[1..], sep);
      if s[0] == sep {
        assert Pieces(s, sep)[1..] == rest;
        assert "" + [sep] + s[1..] == s;
      } else {
        assert Pieces(s, sep)[1..] == rest[1..];
        if |rest| > 1 { assert [s[0]] + rest[0] + [sep] + Rejoin(rest[1..], sep) == [s[0]] + (rest[0] + [sep] + Rejoin(rest[1..], sep)); }
        assert [s[0]] + s[1..] == s;
      }
    }
  }

  lemma {:induction false} RejoinConcat(p: seq<string>, q: seq<string>, sep: char)
    requires p != [] && q != []
    ensures Rejoin(p + q, sep) == Rejoin(p, sep) + [sep] + Rejoin(q, sep)
    decreases |p|
  {
    if |p| == 1 {
      assert (p + q)[1..] == q;
    } else {
      assert (p + q)[1..] == p[1..] + q;
      RejoinConcat(p[1..], q, sep);
    }
  }

  // ---- Names under a wildcard ----

  /** The labels of `base` are the last ones of `name`, with at least one before them. */
  ghost predicate Below(name: string, base: string) {
    var n, b := Pieces(name, '.'), Pieces(base, '.');
    |n| > |b| && n[|n| - |b|..] == b
  }

  lemma EndsBelow(name: string, base: string)
    requires EndsWith(name, "." + base)
    ensures Below(name, base)
  {
    var x := name[..|name| - |base| - 1];
    assert name == x + ("." + base);
    assert name == x + ['.'] + base;
    PiecesConcat(x, base, '.');
    LastPieces(Pieces(x, '.'), Pieces(base, '.'));
  }

  lemma LastPieces(p: seq<string>, q: seq<string>)
    ensures (p + q)[|p + q| - |q|..] == q
  {
  }

  lemma BelowEnds(name: string, base: string)
    requires Below(name, base)
    ensures EndsWith(name, "." + base)
  {
    var n, b := Pieces(name, '.'), Pieces(base, '.');
    var p := n[..|n| - |b|];
    assert n == p + b;
    RejoinConcat(p, b, '.');
    RejoinPieces(name, '.');
    RejoinPieces(base, '.');
    SuffixOf(Rejoin(p, '.'), "." + base, name);
  }

  lemma SuffixOf(a: string, b: string, s: string)
    requires s == a + b
    ensures EndsWith(s, b)
  {
  }

  lemma BelowMeaning(name: string, base: string)
    ensures EndsWith(name, "." + base) <==> Below(name, base)
  {
    if EndsWith(name, "." + base) { EndsBelow(name, base); }
    if Below(name, base) { BelowEnds(name, base); }
  }

  // ---- Paths under a prefix ----

  /** The segments, without empty ones at the end. */
  function Trimmed(segments: seq<string>): seq<string> {
    if segments != [] && segments[|segments| - 1] == "" then Trimmed(segments[..|segments| - 1]) else segments
  }

  ghost predicate FirstOf(p: seq<string>, q: seq<string>) { |p| <= |q| && q[..|p|] == p }

  /** The segments of the prefix, trailing slashes aside, are the first segments of the path. */
  ghost predicate Within(prefix: string, path: string) { FirstOf(Trimmed(Pieces(prefix, '/')), Pieces(path, '/')) }

  lemma {:induction false} LastPiece(s: string, sep: char)
    requires s != "" && s[|s| - 1] != sep
    ensures Pieces(s, sep)[|Pieces(s, sep)| - 1] != ""
  {
    if |s| > 1 {
      assert s[1..][|s[1..]| - 1] == s[|s| - 1];
      LastPiece(s[1..], sep);
    }
  }

  lemma {:induction false} TrimMeaning(prefix: string)
    ensures StripSlashes(prefix) == "" ==> Trimmed(Pieces(prefix, '/')) == []
    ensures StripSlashes(prefix) != "" ==> Trimmed(Pieces(prefix, '/')) == Pieces(StripSlashes(prefix), '/')
    ensures !EndsWith(StripSlashes(prefix), "/")
    decreases |prefix|
  {
    if prefix == "" {
      assert Pieces(prefix, '/')[..0] == [];
    } else if prefix[|prefix| - 1] == '/' {
      var shorter := prefix[..|prefix| - 1];
      TrimMeaning(shorter);
      assert prefix == shorter + ['/'] + "";
      PiecesConcat(shorter, "", '/');
      assert (Pieces(shorter, '/') + [""])[..|Pieces(shorter, '/')|] == Pieces(shorter, '/');
    } else {
      LastPiece(prefix, '/');
      assert prefix[|prefix| - 1..] == [prefix[|prefix| - 1]];
    }
  }

  lemma FirstPieces(stripped: string, path: string)
    requires stripped != ""
    ensures path == stripped || StartsWith(path, stripped + "/") <==> FirstOf(Pieces(stripped, '/'), Pieces(path, '/'))
  {
    var p, q := Pieces(stripped, '/'), Pieces(path, '/');
    if StartsWith(path, stripped + "/") {
      var rest := path[|stripped| + 1..];
      assert path == stripped + ['/'] + rest;
      PiecesConcat(stripped, rest, '/');
    }
    if FirstOf(p, q) {
      RejoinPieces(stripped, '/');
      RejoinPieces(path, '/');
      if |p| < |q| {
        assert q == p + q[|p|..];
        RejoinConcat(p, q[|p|..], '/');
        assert path == stripped + "/" + Rejoin(q[|p|..], '/');
      } else {
        assert q == p;
      }
    }
  }

  lemma PathMeaning(prefix: string, path: string)
    ensures PathMatches(prefix, path) <==> Within(prefix, path)
  {
    TrimMeaning(prefix);
    var stripped := StripSlashes(prefix);
    if stripped != "" {
      assert stripped != "/" by { assert stripped == "/" ==> EndsWith(stripped, "/"); }
      FirstPieces(stripped, path);
    }
  }

  // ---- Addresses in a network ----

  /** Bit `i`, counted from the least significant one. */
  function BitAt(x: nat, i: nat): nat {
    if i == 0 then x % 2 else BitAt(x / 2, i - 1)
  }

  /** All bits from position `s` up agree: for addresses of the family, the first bits, as many as the prefix is long. */
  ghost predicate TopBitsAgree(x: nat, y: nat, s: nat) { forall i :: i >= s ==> BitAt(x, i) == BitAt(y, i) }

  lemma {:induction false} MulMono(a: nat, x: nat, y: nat)
    requires x <= y
    ensures a * x <= a * y
    decreases y - x
  {
    if x < y {
      MulMono(a, x, y - 1);
      assert a * y == a * (y - 1) + a;
    }
  }

  lemma DivUnique(x: nat, a: nat, q: nat, r: nat)
    requires a >= 1 && r < a && x == a * q + r
    ensures x / a == q
  {
    var d, m := x / a, x % a;
    assert x == a * d + m;
    assert a * (d + 1) == a * d + a && a * (q + 1) == a * q + a;
    if q > d { MulMono(a, d + 1, q); } else if q < d { MulMono(a, q + 1, d); }
  }

  lemma DivTwice(x: nat, a: nat)
    requires a >= 1
    ensures x / (2 * a) == x / 2 / a
  {
    var h := x / 2;
    var q, r := h / a, h % a;
    assert h == a * q + r;
    assert x == 2 * a * q + (2 * r + x % 2);
    DivUnique(x, 2 * a, q, 2 * r + x % 2);
  }

  /** Halving `s` times. */
  function Halved(x: nat, s: nat): nat {
    if s == 0 then x else Halved(x / 2, s - 1)
  }

  lemma {:induction false} HalvedIsBlock(x: nat, s: nat)
    ensures Halved(x, s) == x / Pow2(s)
    decreases s
  {
    if s > 0 {
      DivTwice(x, Pow2(s - 1));
      HalvedIsBlock(x / 2, s - 1);
    }
  }

  lemma {:induction false} HalvedBits(x: nat, s: nat, i: nat)
    ensures BitAt(Halved(x, s), i) == BitAt(x, i + s)
    decreases s
  {
    if s > 0 { HalvedBits(x / 2, s - 1, i); }
  }

  lemma {:induction false} SameBits(x: nat, y: nat)
    requires forall i :: i >= 0 ==> BitAt(x, i) == BitAt(y, i)
    ensures x == y
    decreases x + y
  {
    if x + y > 0 {
      assert BitAt(x, 0) == BitAt(y, 0);
      forall i | i >= 0 ensures BitAt(x / 2, i) == BitAt(y / 2, i) {
        assert BitAt(x, i + 1) == BitAt(y, i + 1);
      }
      SameBits(x / 2, y / 2);
    }
  }

  lemma BlocksAgree(x: nat, y: nat, s: nat)
    requires TopBitsAgree(x, y, s)
    ensures Halved(x, s) == Halved(y, s)
  {
    forall i | i >= 0 ensures BitAt(Halved(x, s), i) == BitAt(Halved(y, s), i) {
      HalvedBits(x, s, i);
      HalvedBits(y, s, i);
      assert BitAt(x, i + s) == BitAt(y, i + s);
    }
    SameBits(Halved(x, s), Halved(y, s));
  }

  lemma BlockBits(x: nat, y: nat, s: nat)
    requires Halved(x, s) == Halved(y, s)
    ensures TopBitsAgree(x, y, s)
  {
    forall i: nat | i >= s ensures BitAt(x, i) == BitAt(y, i) {
      HalvedBits(x, s, i - s);
      HalvedBits(y, s, i - s);
    }
  }

  lemma NetworkMeaning(bits: nat, family: Family, network: nat, prefix: nat)
    ensures InNetwork(bits, family, network, prefix) <==>
      TopBitsAgree(bits, network, if prefix <= Width(family) then Width(family) - prefix else 0)
  {
    var s := if prefix <= Width(family) then Width(family) - prefix else 0;
    HalvedIsBlock(bits, s);
    HalvedIsBlock(network, s);
    if TopBitsAgree(bits, network, s) { BlocksAgree(bits, network, s); }
    if Halved(bits, s) == Halved(network, s) { BlockBits(bits, network, s); }
  }

  // ---- Matchers ----

  /** Whether the target is what the matcher names. */
  ghost predicate Names(m: Matcher, t: Target) {
    match m
    case Url(scheme, host, port, path) => t.scheme == scheme && t.host == host && t.port == port && Within(path, t.path)
    case DomainName(name) => t.host == Domain(name)
    case Wildcard(base, includeApex) => t.host.Domain? && (Below(t.host.name, base) || (includeApex && t.host.name == base))
    case SingleAddress(family, bits) => t.host == Address(family, bits)
    case Cidr(family, network, prefix) =>
      && t.host.Address? && t.host.family == family
      && var width := if family == Ipv4 then 32 else 128;
         TopBitsAgree(t.host.bits, network, if prefix <= width then width - prefix else 0)
  }

  lemma MatcherMeaning(m: Matcher, t: Target)
    ensures MatcherAdmits(m, t) <==> Names(m, t)
  {
    match m {
      case Url(scheme, host, port, path) => PathMeaning(path, t.path);
      case DomainName(name) =>
      case Wildcard(base, includeApex) => if t.host.Domain? { BelowMeaning(t.host.name, base); }
      case SingleAddress(family, bits) =>
      case Cidr(family, network, prefix) => if t.host.Address? { NetworkMeaning(t.host.bits, family, network, prefix); }
    }
  }

  /** All matchers and path prefixes at once. */
  lemma Meanings(t: Target)
    ensures forall m {:trigger MatcherAdmits(m, t)} {:trigger Names(m, t)} :: MatcherAdmits(m, t) <==> Names(m, t)
    ensures forall p {:trigger PathMatches(p, t.path)} {:trigger Within(p, t.path)} :: PathMatches(p, t.path) <==> Within(p, t.path)
  {
    forall m ensures MatcherAdmits(m, t) <==> Names(m, t) { MatcherMeaning(m, t); }
    forall p ensures PathMatches(p, t.path) <==> Within(p, t.path) { PathMeaning(p, t.path); }
  }

  // ---- Which matcher is more specific ----

  lemma {:induction false} LabelsArePieces(name: string)
    ensures Labels(name) == |Pieces(name, '.')| && Labels(name) <= |name| + 1
  {
    if name != "" { LabelsArePieces(name[1..]); }
  }

  /** From the most specific kind to the least. */
  ghost function Precedence(m: Matcher): nat {
    match m
    case Url(_, _, _, _) => 5
    case DomainName(_) => 4
    case SingleAddress(_, _) => 3
    case Wildcard(_, _) => 2
    case Cidr(_, _, _) => 1
  }

  /** Names are domain names of at most 253 characters, prefixes at most 128 bits long. */
  ghost predicate Ordinary(m: Matcher) {
    match m
    case DomainName(name) => |name| <= 253
    case Wildcard(base, _) => |base| <= 253
    case Cidr(_, _, prefix) => prefix <= 128
    case _ => true
  }

  /** A URL outranks a domain, that an address, that a wildcard, that a network; within a kind the longer path, name or prefix does. */
  lemma SpecificityMeaning(m: Matcher, n: Matcher)
    requires Ordinary(m) && Ordinary(n)
    ensures Precedence(m) > Precedence(n) ==> Specificity(m) > Specificity(n)
    ensures m.Url? && n.Url? ==> (Specificity(m) > Specificity(n) <==> |m.path| > |n.path|)
    ensures m.DomainName? && n.DomainName? ==> (Specificity(m) > Specificity(n) <==> |Pieces(m.name, '.')| > |Pieces(n.name, '.')|)
    ensures m.Wildcard? && n.Wildcard? ==> (Specificity(m) > Specificity(n) <==> |Pieces(m.base, '.')| > |Pieces(n.base, '.')|)
    ensures m.Cidr? && n.Cidr? ==> (Specificity(m) > Specificity(n) <==> m.prefix > n.prefix)
    ensures m.SingleAddress? && n.SingleAddress? ==> Specificity(m) == Specificity(n)
  {
    if m.DomainName? { LabelsArePieces(m.name); }
    if n.DomainName? { LabelsArePieces(n.name); }
    if m.Wildcard? { LabelsArePieces(m.base); }
    if n.Wildcard? { LabelsArePieces(n.base); }
  }

  /** Whether the rule is about the target. */
  ghost predicate Concerns(r: Rule, t: Target) {
    Names(r.matcher, t) && (r.pathPrefix.Some? ==> Within(r.pathPrefix.value, t.path))
  }
}
