/** The canonical form of an authorization path, and that canonicalization reaches it in one step. */
module CanonicalPath {
  import opened Common
  import opened PercentEncoding

  datatype PathError = NotAbsolute | Delimiter | ControlCharacter | BadEncoding(error: EncodingError) | Unstable

  // ---- Segments ----

  function Split(s: string): (segments: seq<string>)
    ensures |segments| >= 1
  {
    if s == "" then [""]
    else if s[0] == '/' then [""] + Split(s[1..])
    else
      var rest := Split(s[1..]);
      [[s[0]] + rest[0]] + rest[1..]
  }

  function Join(segments: seq<string>): string {
    if segments == [] then ""
    else if |segments| == 1 then segments[0]
    else segments[0] + "/" + Join(segments[1..])
  }

  /** `.` and empty segments vanish, `..` takes the segment before it away. */
  function Resolve(stack: seq<string>, segments: seq<string>): seq<string>
    decreases |segments|
  {
    if segments == [] then stack
    else if segments[0] == "" || segments[0] == "." then Resolve(stack, segments[1..])
    else if segments[0] != ".." || (stack != [] && stack[|stack| - 1] == "..") then Resolve(stack + [segments[0]], segments[1..])
    else Resolve(if stack == [] then stack else stack[..|stack| - 1], segments[1..])
  }

  predicate StartsWith(s: string, prefix: string) { |prefix| <= |s| && s[..|prefix|] == prefix }

  /** POSIX normalization of an absolute path; exactly two leading slashes are kept. */
  function NormPath(s: string): string {
    (if StartsWith(s, "//") && !StartsWith(s, "///") then "//" else "/") + Join(Resolve([], Split(s)))
  }

  function DropSlashes(s: string): string {
    if s != "" && s[0] == '/' then DropSlashes(s[1..]) else s
  }

  function OneSlash(s: string): string {
    if StartsWith(s, "//") then "/" + DropSlashes(s) else s
  }

  // ---- Quoting ----

  predicate Alphanumeric(c: char) { 'A' <= c <= 'Z' || 'a' <= c <= 'z' || '0' <= c <= '9' }

  predicate Safe(c: char) {
    Alphanumeric(c) || c in "/:@-._~!$&'()*+,;=%"
  }

  function Utf8(c: char): (octets: seq<nat>)
    ensures forall i :: 0 <= i < |octets| ==> octets[i] < 256
    ensures if c as int < 128 then octets == [c as int] else forall i :: 0 <= i < |octets| ==> octets[i] >= 128
  {
    var n := c as int;
    if n < 0x80 then [n]
    else if n < 0x800 then [0xC0 + n / 64, 0x80 + n % 64]
    else if n < 0x10000 then [0xE0 + n / 4096, 0x80 + n / 64 % 64, 0x80 + n % 64]
    else [0xF0 + n / 262144, 0x80 + n / 4096 % 64, 0x80 + n / 64 % 64, 0x80 + n % 64]
  }

  function EscapeAll(octets: seq<nat>): string
    requires forall i :: 0 <= i < |octets| ==> octets[i] < 256
  {
    if octets == [] then "" else Escape(octets[0]) + EscapeAll(octets[1..])
  }

  function QuoteChar(c: char): string { if Safe(c) then [c] else EscapeAll(Utf8(c)) }

  function Quote(s: string): string {
    if s == "" then "" else QuoteChar(s[0]) + Quote(s[1..])
  }

  // ---- Canonicalization ----

  predicate Control(c: char) { c as int < 32 || 127 <= c as int < 160 }

  predicate EndsWithSlash(s: string) { s != "" && s[|s| - 1] == '/' }

  /** The path with its slashes settled, before quoting. */
  function Settled(percent: string): string {
    var path := OneSlash(NormPath(percent));
    if EndsWithSlash(percent) && path != "/" then path + "/" else path
  }

  function CanonicalizePath(value: string): Result<string, PathError> {
    if !StartsWith(value, "/") then Err(NotAbsolute)
    else if '\\' in value || '?' in value || '#' in value then Err(Delimiter)
    else if exists i :: 0 <= i < |value| && Control(value[i]) then Err(ControlCharacter)
    else
      match Normalize(value, true)
      case Err(e) => Err(BadEncoding(e))
      case Ok(percent) =>
        var safe := Quote(Settled(percent));
        if Normalize(safe, true) != Ok(safe) then Err(Unstable) else Ok(safe)
  }

  // ---- Splitting and joining ----

  ghost predicate Slashless(s: string) { '/' !in s }

  ghost predicate AllSlashless(segments: seq<string>) { forall i :: 0 <= i < |segments| ==> Slashless(segments[i]) }

  lemma {:induction false} SplitSlashless(s: string)
    ensures AllSlashless(Split(s))
  {
    if s != "" { SplitSlashless(s[1..]); }
  }

  lemma {:induction false} SplitPiece(a: string, b: string)
    requires Slashless(a)
    ensures Split(a + "/" + b) == [a] + Split(b)
    decreases |a|
  {
    var s := a + "/" + b;
    if a == "" {
      assert s[1..] == b;
    } else {
      assert s[1..] == a[1..] + "/" + b;
      SplitPiece(a[1..], b);
      assert [a[0]] + a[1..] == a;
    }
  }

  lemma {:induction false} SplitWhole(a: string)
    requires Slashless(a)
    ensures Split(a) == [a]
    decreases |a|
  {
    if a != "" {
      SplitWhole(a[1..]);
      assert [a[0]] + a[1..] == a;
    }
  }

  lemma {:induction false} SplitJoin(segments: seq<string>)
    requires segments != [] && AllSlashless(segments)
    ensures Split(Join(segments)) == segments
  {
    if |segments| == 1 {
      SplitWhole(segments[0]);
    } else {
      SplitJoin(segments[1..]);
      SplitPiece(segments[0], Join(segments[1..]));
    }
  }

  // ---- Resolving ----

  /** An ordinary segment: not empty, not a dot segment. */
  ghost predicate Plain(s: string) { Slashless(s) && s != "" && s != "." && s != ".." }

  ghost predicate AllPlain(segments: seq<string>) { forall i :: 0 <= i < |segments| ==> Plain(segments[i]) }

  lemma {:induction false} ResolvePlain(stack: seq<string>, segments: seq<string>)
    requires AllPlain(stack) && AllSlashless(segments)
    ensures AllPlain(Resolve(stack, segments))
    ensures forall s :: s in Resolve(stack, segments) ==> s in stack || s in segments
    decreases |segments|
  {
    if segments != [] {
      var s, rest := segments[0], segments[1..];
      assert stack != [] ==> stack[|stack| - 1] != "..";
      if s == "" || s == "." { ResolvePlain(stack, rest); }
      else if s != ".." { ResolvePlain(stack + [s], rest); }
      else { ResolvePlain(if stack == [] then stack else stack[..|stack| - 1], rest); }
    }
  }

  lemma {:induction false} ResolveIdentity(stack: seq<string>, segments: seq<string>, tail: seq<string>)
    requires AllPlain(segments) && forall i :: 0 <= i < |tail| ==> tail[i] == ""
    ensures Resolve(stack, segments + tail) == stack + segments
    decreases |segments| + |tail|
  {
    var all := segments + tail;
    if segments != [] {
      assert all[1..] == segments[1..] + tail;
      ResolveIdentity(stack + [segments[0]], segments[1..], tail);
    } else if tail != [] {
      assert all[1..] == [] + tail[1..];
      ResolveIdentity(stack, [], tail[1..]);
    }
  }

  lemma {:induction false} ResolveSplit(stack: seq<string>, a: seq<string>, b: seq<string>)
    ensures Resolve(stack, a + b) == Resolve(Resolve(stack, a), b)
    decreases |a|
  {
    if a == [] {
      assert a + b == b;
    } else {
      assert (a + b)[1..] == a[1..] + b;
      if a[0] == "" || a[0] == "." { ResolveSplit(stack, a[1..], b); }
      else if a[0] != ".." || (stack != [] && stack[|stack| - 1] == "..") { ResolveSplit(stack + [a[0]], a[1..], b); }
      else { ResolveSplit(if stack == [] then stack else stack[..|stack| - 1], a[1..], b); }
    }
  }

  lemma ResolveOne(stack: seq<string>, s: string)
    ensures s == "" || s == "." ==> Resolve(stack, [s]) == stack
    ensures Plain(s) ==> Resolve(stack, [s]) == stack + [s]
    ensures s == ".." && stack == [] ==> Resolve(stack, [s]) == []
    ensures s == ".." && stack != [] && stack[|stack| - 1] != ".." ==> Resolve(stack, [s]) == stack[..|stack| - 1]
  {
    assert [s][1..] == [];
  }

  /**
   * The laws of dot segments, which determine the result: an empty segment or `.` has no effect, `..`
   * undoes the ordinary segment before it and has no effect at the root, and ordinary segments stay.
   */
  lemma ResolveLaws(a: seq<string>, s: string, b: seq<string>)
    requires AllSlashless(a)
    ensures s == "" || s == "." ==> Resolve([], a + [s] + b) == Resolve([], a + b)
    ensures Plain(s) ==> Resolve([], a + [s] + [".."] + b) == Resolve([], a + b)
    ensures Resolve([], [".."] + b) == Resolve([], b)
    ensures AllPlain(a) ==> Resolve([], a) == a
  {
    var stack := Resolve([], a);
    ResolvePlain([], a);
    ResolveSplit([], a, b);
    ResolveSplit([], a + [s], b);
    ResolveSplit([], a, [s]);
    ResolveOne(stack, s);
    ResolveSplit([], a + [s] + [".."], b);
    ResolveSplit([], a + [s], [".."]);
    if Plain(s) {
      ResolveOne(stack + [s], "..");
      assert (stack + [s])[..|stack|] == stack;
    }
    ResolveSplit([], [".."], b);
    ResolveOne([], "..");
    if AllPlain(a) {
      ResolveIdentity([], a, []);
      assert a + [] == a && [] + a == a;
    }
  }

  // ---- The settled form ----

  /** The path made of these segments. */
  function Render(segments: seq<string>, trailing: bool): string {
    "/" + Join(segments + if trailing then [""] else [])
  }

  lemma {:induction false} JoinTrailing(segments: seq<string>)
    requires segments != []
    ensures Join(segments + [""]) == Join(segments) + "/"
  {
    if |segments| == 1 {
      assert (segments + [""])[1..] == [""];
    } else {
      JoinTrailing(segments[1..]);
      assert (segments + [""])[1..] == segments[1..] + [""];
    }
  }

  lemma JoinHead(segments: seq<string>)
    requires AllPlain(segments)
    ensures Join(segments) == "" <==> segments == []
    ensures segments != [] ==> Join(segments)[0] == segments[0][0] != '/'
  {
    if segments != [] {
      assert Plain(segments[0]);
      assert segments[0][0] in segments[0];
    }
  }

  lemma {:induction false} JoinLast(segments: seq<string>)
    requires AllPlain(segments) && segments != []
    ensures !EndsWithSlash(Join(segments))
  {
    assert Plain(segments[0]);
    if |segments| == 1 {
      assert segments[0][|segments[0]| - 1] in segments[0];
    } else {
      JoinLast(segments[1..]);
      JoinHead(segments[1..]);
    }
  }

  lemma OneSlashOf(slashes: string, segments: seq<string>)
    requires (slashes == "/" || slashes == "//") && AllPlain(segments)
    ensures OneSlash(slashes + Join(segments)) == "/" + Join(segments)
  {
    var j := Join(segments);
    JoinHead(segments);
    if slashes == "//" {
      assert (slashes + j)[1..] == "/" + j && ("/" + j)[1..] == j;
      assert DropSlashes(j) == j;
      assert DropSlashes("/" + j) == j;
    } else {
      assert !StartsWith("/" + j, "//") by { if j != "" { assert ("/" + j)[1] == j[0]; } }
    }
  }

  /** Settling a path yields its resolved segments, none of them a dot segment or empty. */
  lemma SettledForm(percent: string)
    requires StartsWith(percent, "/")
    ensures var segments := Resolve([], Split(percent));
      AllPlain(segments) && Settled(percent) == Render(segments, EndsWithSlash(percent) && segments != [])
  {
    var segments := Resolve([], Split(percent));
    SplitSlashless(percent);
    ResolvePlain([], Split(percent));
    OneSlashOf(if StartsWith(percent, "//") && !StartsWith(percent, "///") then "//" else "/", segments);
    JoinHead(segments);
    if segments != [] {
      JoinTrailing(segments);
      assert "/" + Join(segments) + "/" == "/" + (Join(segments) + "/");
    }
    assert segments + [] == segments;
  }

  lemma SplitRendered(segments: seq<string>, trailing: bool)
    requires AllPlain(segments) && (trailing ==> segments != [])
    ensures Resolve([], Split(Render(segments, trailing))) == segments
  {
    var tail := if trailing then [""] else [];
    var list := segments + tail;
    assert Render(segments, trailing)[1..] == Join(list);
    if list == [] {
      assert Split(Join(list)) == [""];
      assert Split(Render(segments, trailing)) == ["", ""];
      assert ["", ""][1..] == [""] && [""][1..] == [];
    } else {
      assert AllSlashless(list);
      SplitJoin(list);
      assert Split(Render(segments, trailing)) == [""] + list;
      assert ([""] + list)[1..] == list;
      ResolveIdentity([], segments, tail);
      assert [] + segments == segments;
    }
  }

  lemma RenderedEnd(segments: seq<string>, trailing: bool)
    requires AllPlain(segments) && (trailing ==> segments != [])
    ensures EndsWithSlash(Render(segments, trailing)) && segments != [] <==> trailing
  {
    if segments != [] {
      JoinTrailing(segments);
      JoinLast(segments);
      JoinHead(segments);
      assert segments + [] == segments;
    }
  }

  /** A rendered path settles to itself. */
  lemma SettledRendered(segments: seq<string>, trailing: bool)
    requires AllPlain(segments) && (trailing ==> segments != [])
    ensures Settled(Render(segments, trailing)) == Render(segments, trailing)
  {
    SettledForm(Render(segments, trailing));
    SplitRendered(segments, trailing);
    RenderedEnd(segments, trailing);
  }

  // ---- Quoting ----

  lemma {:induction false} QuoteConcat(a: string, b: string)
    ensures Quote(a + b) == Quote(a) + Quote(b)
    decreases |a|
  {
    if a == "" {
      assert a + b == b;
    } else {
      assert (a + b)[1..] == a[1..] + b;
      QuoteConcat(a[1..], b);
    }
  }

  lemma {:induction false} QuoteSafe(s: string)
    requires forall i :: 0 <= i < |s| ==> Safe(s[i])
    ensures Quote(s) == s
  {
    if s != "" {
      QuoteSafe(s[1..]);
      assert [s[0]] + s[1..] == s;
    }
  }

  lemma HexIsSafe(v: nat)
    requires v < 16
    ensures Safe(HexDigit(v)) && HexDigit(v) != '/' && HexDigit(v) != '.'
  {
  }

  /** An escaped octet sequence is made of safe characters and holds neither slash nor dot. */
  lemma {:induction false} EscapesSafe(octets: seq<nat>)
    requires forall i :: 0 <= i < |octets| ==> octets[i] < 256
    ensures forall i :: 0 <= i < |EscapeAll(octets)| ==> var c := EscapeAll(octets)[i]; Safe(c) && c != '/' && c != '.'
  {
    if octets != [] {
      EscapesSafe(octets[1..]);
      HexIsSafe(octets[0] / 16);
      HexIsSafe(octets[0] % 16);
    }
  }

  lemma {:induction false} QuotedSafe(s: string)
    ensures forall i :: 0 <= i < |Quote(s)| ==> Safe(Quote(s)[i])
    ensures Slashless(s) ==> Slashless(Quote(s))
  {
    if s != "" {
      QuotedSafe(s[1..]);
      EscapesSafe(Utf8(s[0]));
      if Slashless(s) { assert Slashless(QuoteChar(s[0])); }
    }
  }

  /** Quoting makes no dot segment out of an ordinary one. */
  lemma QuotedPlain(s: string)
    requires Plain(s)
    ensures Plain(Quote(s))
  {
    QuotedSafe(s);
    if forall i :: 0 <= i < |s| ==> Safe(s[i]) {
      QuoteSafe(s);
    } else {
      var i :| 0 <= i < |s| && !Safe(s[i]);
      assert s == s[..i] + ([s[i]] + s[i + 1..]);
      QuoteConcat(s[..i], [s[i]] + s[i + 1..]);
      QuoteConcat([s[i]], s[i + 1..]);
      QuotedEscape(s[i]);
      assert '%' in Quote(s);
    }
  }

  lemma QuotedEscape(c: char)
    requires !Safe(c)
    ensures '%' in Quote([c])
  {
    assert [c][1..] == "";
    assert Utf8(c) != [];
    assert EscapeAll(Utf8(c))[0] == '%';
    assert Quote([c]) == EscapeAll(Utf8(c)) + "";
  }

  function QuoteEach(segments: seq<string>): (r: seq<string>)
    ensures |r| == |segments| && forall i :: 0 <= i < |r| ==> r[i] == Quote(segments[i])
  {
    if segments == [] then [] else [Quote(segments[0])] + QuoteEach(segments[1..])
  }

  lemma {:induction false} QuoteJoin(segments: seq<string>)
    ensures Quote(Join(segments)) == Join(QuoteEach(segments))
  {
    if |segments| > 1 {
      QuoteJoin(segments[1..]);
      QuoteConcat(segments[0] + "/", Join(segments[1..]));
      QuoteConcat(segments[0], "/");
      QuoteSafe("/");
    }
  }

  lemma QuoteRender(segments: seq<string>, trailing: bool)
    ensures Quote(Render(segments, trailing)) == Render(QuoteEach(segments), trailing)
  {
    var list := segments + if trailing then [""] else [];
    QuoteConcat("/", Join(list));
    QuoteSafe("/");
    QuoteJoin(list);
    assert QuoteEach(list) == QuoteEach(segments) + if trailing then [""] else [];
  }

  // ---- Stability ----

  /** A stable string and, if it does not start with `%`, its tail; otherwise what follows the escape. */
  lemma StableTail(s: string)
    requires Stable(s, true) && s != ""
    ensures s[0] != '%' ==> Stable(s[1..], true)
    ensures s[0] == '%' ==> EscapeAhead(s) && Stable(s[..3], true) && Stable(s[3..], true) && Slashless(s[..3])
  {
    if s[0] != '%' {
      var rest := Normalize(s[1..], true).value;
      assert ([s[0]] + rest)[1..] == rest;
    } else {
      var octet := EscapedOctet(s);
      var rest := Normalize(s[3..], true).value;
      assert s == NormalEscape(octet) + rest;
      assert NormalEscape(octet)[0] == '%';
      assert s[..3] == Escape(octet) && s[3..] == rest;
      StableEscape(octet, true);
    }
  }

  lemma {:induction false} SplitStable(s: string)
    requires Stable(s, true)
    ensures forall i :: 0 <= i < |Split(s)| ==> Stable(Split(s)[i], true)
    decreases |s|
  {
    if s == "" {
    } else if s[0] == '/' {
      StableTail(s);
      SplitStable(s[1..]);
    } else if s[0] != '%' {
      StableTail(s);
      SplitStable(s[1..]);
      StableChar(s[0], true);
      StableConcat([s[0]], Split(s[1..])[0], true);
    } else {
      StableTail(s);
      SplitStable(s[3..]);
      SplitEscape(s);
      StableConcat(s[..3], Split(s[3..])[0], true);
    }
  }

  lemma SplitEscape(s: string)
    requires |s| >= 3 && Slashless(s[..3])
    ensures Split(s) == [s[..3] + Split(s[3..])[0]] + Split(s[3..])[1..]
  {
    assert s[0] == s[..3][0] && s[1] == s[..3][1] && s[2] == s[..3][2];
    assert s[0] != '/' && s[1] != '/' && s[2] != '/';
    assert s[1..][1..] == s[2..] && s[2..][1..] == s[3..];
    var rest := Split(s[3..]);
    assert Split(s[2..]) == [[s[2]] + rest[0]] + rest[1..];
    assert Split(s[1..]) == [[s[1]] + ([s[2]] + rest[0])] + rest[1..];
    assert [s[0]] + ([s[1]] + ([s[2]] + rest[0])) == s[..3] + rest[0];
  }

  lemma {:induction false} JoinStable(segments: seq<string>)
    requires forall i :: 0 <= i < |segments| ==> Stable(segments[i], true)
    ensures Stable(Join(segments), true)
  {
    if |segments| > 1 {
      JoinStable(segments[1..]);
      StableChar('/', true);
      StableConcat(segments[0], "/", true);
      StableConcat(segments[0] + "/", Join(segments[1..]), true);
    }
  }

  lemma {:induction false} EscapesStable(octets: seq<nat>)
    requires forall i :: 0 <= i < |octets| ==> octets[i] < 256 && !Unreserved(octets[i] as char) && !Ambiguous(octets[i] as char)
    ensures Stable(EscapeAll(octets), true)
  {
    if octets != [] {
      EscapesStable(octets[1..]);
      StableEscape(octets[0], true);
      StableConcat(Escape(octets[0]), EscapeAll(octets[1..]), true);
    }
  }

  /** Quoting a stable string without backslashes keeps it stable. */
  lemma {:induction false} QuoteStable(s: string)
    requires Stable(s, true) && '\\' !in s
    ensures Stable(Quote(s), true)
    decreases |s|
  {
    if s != "" {
      StableTail(s);
      if s[0] != '%' {
        QuoteStable(s[1..]);
        if Safe(s[0]) { StableChar(s[0], true); } else { EscapesStable(Utf8(s[0])); }
        StableConcat(QuoteChar(s[0]), Quote(s[1..]), true);
      } else {
        QuoteStable(s[3..]);
        assert s == s[..3] + s[3..];
        QuoteConcat(s[..3], s[3..]);
        QuoteSafe(s[..3]);
        StableConcat(s[..3], Quote(s[3..]), true);
      }
    }
  }

  // ---- Characters stay what they were ----

  lemma {:induction false} NormalizeAdds(s: string, c: char)
    requires Normalize(s, true).Ok? && c !in s && !Unreserved(c) && c != '%'
    ensures c !in Normalize(s, true).value
    decreases |s|
  {
    if s != "" {
      if s[0] != '%' { NormalizeAdds(s[1..], c); }
      else {
        NormalizeAdds(s[3..], c);
        var octet := EscapedOctet(s);
        assert c !in NormalEscape(octet);
      }
    }
  }

  lemma {:induction false} SplitFrom(s: string, c: char)
    requires c !in s
    ensures forall i :: 0 <= i < |Split(s)| ==> c !in Split(s)[i]
  {
    if s != "" { SplitFrom(s[1..], c); }
  }

  lemma {:induction false} JoinFrom(segments: seq<string>, c: char)
    requires c != '/' && forall i :: 0 <= i < |segments| ==> c !in segments[i]
    ensures c !in Join(segments)
  {
    if |segments| > 1 { JoinFrom(segments[1..], c); }
  }

  // ---- The canonical form ----

  ghost predicate IsRendering(s: string, segments: seq<string>, trailing: bool) {
    AllPlain(segments) && (trailing ==> segments != []) && s == Render(segments, trailing)
  }

  ghost predicate AllSafe(s: string) { forall i :: 0 <= i < |s| ==> Safe(s[i]) }

  /** Ordinary segments only, every escape needed, upper case and no separator, nothing left to quote. */
  ghost predicate Canonical(s: string) {
    (exists segments, trailing :: IsRendering(s, segments, trailing)) && Stable(s, true) && AllSafe(s)
  }

  lemma NormalizedStart(value: string)
    requires StartsWith(value, "/") && Normalize(value, true).Ok?
    ensures StartsWith(Normalize(value, true).value, "/")
  {
  }

  /** The stability check cannot fail, and what is returned is canonical. */
  lemma SettledIsCanonical(value: string)
    requires StartsWith(value, "/") && '\\' !in value && Normalize(value, true).Ok?
    ensures Canonical(Quote(Settled(Normalize(value, true).value)))
  {
    var percent := Normalize(value, true).value;
    NormalizedStart(value);
    NormalizeIdempotent(value, true);
    NormalizeAdds(value, '\\');
    SettledForm(percent);
    SplitStable(percent);
    SplitSlashless(percent);
    SplitFrom(percent, '\\');
    var segments := Resolve([], Split(percent));
    ResolvePlain([], Split(percent));
    RenderCanonical(segments, EndsWithSlash(percent) && segments != []);
  }

  lemma RenderCanonical(segments: seq<string>, trailing: bool)
    requires AllPlain(segments) && (trailing ==> segments != [])
    requires forall s :: s in segments ==> Stable(s, true) && '\\' !in s
    ensures Canonical(Quote(Render(segments, trailing)))
  {
    var list := segments + if trailing then [""] else [];
    assert Stable("", true);
    forall i | 0 <= i < |list| ensures Stable(list[i], true) && '\\' !in list[i] {
      assert list[i] in segments || list[i] == "";
    }
    JoinStable(list);
    JoinFrom(list, '\\');
    StableChar('/', true);
    StableConcat("/", Join(list), true);
    QuoteStable(Render(segments, trailing));
    QuotedSafe(Render(segments, trailing));
    QuoteRender(segments, trailing);
    forall i | 0 <= i < |segments| ensures Plain(QuoteEach(segments)[i]) { QuotedPlain(segments[i]); }
    assert IsRendering(Quote(Render(segments, trailing)), QuoteEach(segments), trailing);
  }

  lemma CanonicalResult(value: string)
    ensures CanonicalizePath(value).Ok? ==> Canonical(CanonicalizePath(value).value)
    ensures CanonicalizePath(value) != Err(Unstable)
  {
    if StartsWith(value, "/") && '\\' !in value && Normalize(value, true).Ok? { SettledIsCanonical(value); }
  }

  lemma SafeIsClean(s: string)
    requires AllSafe(s)
    ensures '\\' !in s && '?' !in s && '#' !in s && forall i :: 0 <= i < |s| ==> !Control(s[i])
  {
    assert !Safe('\\') && !Safe('?') && !Safe('#');
    forall i | 0 <= i < |s| ensures !Control(s[i]) { assert Safe(s[i]); }
  }

  lemma RenderingFixpoint(s: string, segments: seq<string>, trailing: bool)
    requires IsRendering(s, segments, trailing) && Stable(s, true) && AllSafe(s)
    ensures Quote(Settled(s)) == s && StartsWith(s, "/")
  {
    assert s[..1] == "/";
    SettledRendered(segments, trailing);
    QuoteSafe(s);
  }

  lemma CanonicalFixpoint(s: string)
    requires Canonical(s)
    ensures CanonicalizePath(s) == Ok(s)
  {
    var segments, trailing :| IsRendering(s, segments, trailing);
    RenderingFixpoint(s, segments, trailing);
    SafeIsClean(s);
  }

  /** A path is accepted exactly when it is absolute, well encoded and free of delimiters, backslashes and control characters. */
  lemma AcceptedIff(value: string)
    ensures CanonicalizePath(value).Ok? <==>
      && value != "" && value[0] == '/' && '\\' !in value && '?' !in value && '#' !in value
      && (forall i :: 0 <= i < |value| ==> !Control(value[i])) && WellEncoded(value, true)
  {
    CanonicalResult(value);
    AcceptsIff(value, true);
    if value != "" { assert value[..1] == [value[0]]; }
  }

  /** A path is left as it is exactly when it is canonical. */
  lemma FixpointIffCanonical(s: string)
    ensures CanonicalizePath(s) == Ok(s) <==> Canonical(s)
  {
    if Canonical(s) { CanonicalFixpoint(s); }
    CanonicalResult(s);
  }

  /** Canonicalization is idempotent. */
  lemma CanonicalizeIdempotent(value: string)
    requires CanonicalizePath(value).Ok?
    ensures CanonicalizePath(CanonicalizePath(value).value) == CanonicalizePath(value)
  {
    CanonicalResult(value);
    FixpointIffCanonical(CanonicalizePath(value).value);
  }

  ghost predicate DotSegment(s: string) { s == "." || s == ".." }

  /**
   * The segments of a canonical path are ordinary, save for one empty segment at either end; and no
   * segment spells a dot segment even after percent-decoding.
   */
  lemma CanonicalSegments(value: string, i: nat)
    requires CanonicalizePath(value).Ok? && i < |Split(CanonicalizePath(value).value)|
    ensures var segments := Split(CanonicalizePath(value).value);
      && (0 < i < |segments| - 1 ==> segments[i] != "")
      && Decoded(segments[i]) != Decoded(".") && Decoded(segments[i]) != Decoded("..")
      && SymbolOf('/') !in Decoded(segments[i]) && SymbolOf('\\') !in Decoded(segments[i]) && SymbolOf('%') !in Decoded(segments[i])
  {
    var y := CanonicalizePath(value).value;
    CanonicalResult(value);
    var plain, trailing :| IsRendering(y, plain, trailing);
    RenderedSegments(y, plain, trailing, i);
    SplitStable(y);
    NotDots(Split(y)[i]);
    SplitSlashless(y);
    SafeIsClean(y);
    SplitFrom(y, '\\');
    NoHiddenSeparators(Split(y)[i], '/');
    NoHiddenSeparators(Split(y)[i], '\\');
    NoHiddenSeparators(Split(y)[i], '%');
  }

  lemma RenderedSegments(y: string, plain: seq<string>, trailing: bool, i: nat)
    requires IsRendering(y, plain, trailing) && i < |Split(y)|
    ensures !DotSegment(Split(y)[i]) && (0 < i < |Split(y)| - 1 ==> Split(y)[i] != "")
  {
    var list := plain + if trailing then [""] else [];
    assert y[1..] == Join(list);
    if list != [] {
      assert AllSlashless(list);
      SplitJoin(list);
    } else {
      assert Split(y[1..]) == [""];
    }
    assert Split(y) == [""] + Split(y[1..]);
  }

  lemma NotDots(s: string)
    requires Stable(s, true) && !DotSegment(s)
    ensures Decoded(s) != Decoded(".") && Decoded(s) != Decoded("..")
  {
    DotsDecoded();
    if forall i :: 0 <= i < |Decoded(s)| ==> Decoded(s)[i] == SymbolOf('.') { NoHiddenDots(s, true); }
  }

  lemma DotsDecoded()
    ensures Decoded(".") == [SymbolOf('.')] && Decoded("..") == [SymbolOf('.'), SymbolOf('.')]
  {
    assert "."[1..] == "" && ".."[1..] == ".";
  }

  // ---- Quoting keeps the text ----

  /** Six bits at a time. */
  lemma SixBits(n: nat)
    ensures n == n / 64 * 64 + n % 64 && n / 64 == n / 4096 * 64 + n / 64 % 64 && n / 4096 == n / 262144 * 64 + n / 4096 % 64
  {
    assert n / 64 / 64 == n / 4096 && n / 4096 / 64 == n / 262144;
  }

  /** The number that the octets of one character stand for (section 3 of RFC 3629). */
  function Utf8Value(o: seq<int>): int
    requires 1 <= |o| <= 4
  {
    if |o| == 1 then o[0]
    else if |o| == 2 then (o[0] - 0xC0) * 64 + (o[1] - 0x80)
    else if |o| == 3 then ((o[0] - 0xE0) * 64 + (o[1] - 0x80)) * 64 + (o[2] - 0x80)
    else (((o[0] - 0xF0) * 64 + (o[1] - 0x80)) * 64 + (o[2] - 0x80)) * 64 + (o[3] - 0x80)
  }

  /** The octets decode to the character, in the shortest form. */
  lemma Utf8Meaning(c: char)
    ensures var o := Utf8(c);
      && 1 <= |o| <= 4 && Utf8Value(o) == c as int && (forall i :: 1 <= i < |o| ==> 0x80 <= o[i] < 0xC0)
      && (|o| >= 2 ==> c as int >= 0x80) && (|o| >= 3 ==> c as int >= 0x800) && (|o| == 4 ==> c as int >= 0x10000)
  {
    SixBits(c as int);
  }

  /** The octets of a text, with its wide characters in UTF-8. */
  function Octets(text: seq<Symbol>): seq<nat> {
    if text == [] then []
    else (match text[0] case Octet(v) => [v] case Wide(c) => Utf8(c)) + Octets(text[1..])
  }

  lemma {:induction false} OctetsConcat(a: seq<Symbol>, b: seq<Symbol>)
    ensures Octets(a + b) == Octets(a) + Octets(b)
    decreases |a|
  {
    if a == [] {
      assert a + b == b;
    } else {
      assert (a + b)[1..] == a[1..] + b;
      OctetsConcat(a[1..], b);
    }
  }

  lemma EscapeFirst(a: string, b: string)
    requires EscapeAhead(a) && Decoded(a[3..] + b) == Decoded(a[3..]) + Decoded(b)
    ensures Decoded(a + b) == Decoded(a) + Decoded(b)
  {
    assert (a + b)[3..] == a[3..] + b;
    assert EscapeAhead(a + b) && EscapedOctet(a + b) == EscapedOctet(a);
  }

  lemma SymbolFirst(a: string, b: string)
    requires a != "" && a[0] != '%' && Decoded(a[1..] + b) == Decoded(a[1..]) + Decoded(b)
    ensures Decoded(a + b) == Decoded(a) + Decoded(b)
  {
    assert (a + b)[1..] == a[1..] + b;
    assert (a + b)[0] == a[0];
  }

  /** Decoding works token by token on a stable string. */
  lemma {:induction false} DecodedConcat(a: string, b: string)
    requires Stable(a, true)
    ensures Decoded(a + b) == Decoded(a) + Decoded(b)
    decreases |a|
  {
    if a == "" {
      assert a + b == b;
    } else {
      StableTail(a);
      if a[0] == '%' {
        DecodedConcat(a[3..], b);
        EscapeFirst(a, b);
      } else {
        DecodedConcat(a[1..], b);
        SymbolFirst(a, b);
      }
    }
  }

  lemma {:induction false} EscapedText(octets: seq<nat>)
    requires forall i :: 0 <= i < |octets| ==> octets[i] < 256
    ensures Octets(Decoded(EscapeAll(octets))) == octets
  {
    if octets != [] {
      var s := EscapeAll(octets);
      assert s[3..] == EscapeAll(octets[1..]);
      assert EscapedOctet(s) == octets[0];
      EscapedText(octets[1..]);
      var d := Decoded(s);
      assert d[1..] == Decoded(s[3..]);
      assert octets == [octets[0]] + octets[1..];
    }
  }

  lemma CharText(c: char)
    requires c != '%' && c != '\\'
    ensures Stable(QuoteChar(c), true) && Octets(Decoded(QuoteChar(c))) == Octets([SymbolOf(c)])
  {
    assert [SymbolOf(c)][1..] == [];
    if Safe(c) {
      StableChar(c, true);
      assert [c][1..] == "";
      assert Decoded([c]) == [SymbolOf(c)];
    } else {
      EscapesStable(Utf8(c));
      EscapedText(Utf8(c));
      assert Octets([SymbolOf(c)]) == Utf8(c);
    }
  }

  /** Quoting a stable path changes how its text is written, not the text. */
  lemma {:induction false} QuotePreservesText(s: string)
    requires Stable(s, true) && '\\' !in s
    ensures Octets(Decoded(Quote(s))) == Octets(Decoded(s))
    decreases |s|
  {
    if s != "" {
      StableTail(s);
      if s[0] != '%' {
        QuotePreservesText(s[1..]);
        CharText(s[0]);
        DecodedConcat(QuoteChar(s[0]), Quote(s[1..]));
        OctetsConcat(Decoded(QuoteChar(s[0])), Decoded(Quote(s[1..])));
        assert Decoded(s) == [SymbolOf(s[0])] + Decoded(s[1..]);
        OctetsConcat([SymbolOf(s[0])], Decoded(s[1..]));
      } else {
        QuotePreservesText(s[3..]);
        assert s == s[..3] + s[3..];
        QuoteConcat(s[..3], s[3..]);
        QuoteSafe(s[..3]);
        DecodedConcat(s[..3], Quote(s[3..]));
        DecodedConcat(s[..3], s[3..]);
        OctetsConcat(Decoded(s[..3]), Decoded(Quote(s[3..])));
        OctetsConcat(Decoded(s[..3]), Decoded(s[3..]));
      }
    }
  }
}
