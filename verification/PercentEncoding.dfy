/** Percent-encoding normalization of URL paths and queries (sections 6.2.2.1 and 6.2.2.2 of RFC 3986). */
module PercentEncoding {
  import opened Common

  predicate IsHex(c: char) { '0' <= c <= '9' || 'a' <= c <= 'f' || 'A' <= c <= 'F' }

  function HexValue(c: char): (v: nat)
    requires IsHex(c)
    ensures v < 16
  {
    if '0' <= c <= '9' then c as int - '0' as int
    else if 'a' <= c <= 'f' then c as int - 'a' as int + 10
    else c as int - 'A' as int + 10
  }

  /** The upper-case hexadecimal digit. */
  function HexDigit(v: nat): (c: char)
    requires v < 16
    ensures IsHex(c) && HexValue(c) == v && !('a' <= c <= 'f')
  {
    if v < 10 then ('0' as int + v) as char else ('A' as int + v - 10) as char
  }

  function Escape(octet: nat): (s: string)
    requires octet < 256
    ensures |s| == 3 && s[0] == '%'
  {
    ['%', HexDigit(octet / 16), HexDigit(octet % 16)]
  }

  predicate Unreserved(c: char) {
    'A' <= c <= 'Z' || 'a' <= c <= 'z' || '0' <= c <= '9' || c == '-' || c == '.' || c == '_' || c == '~'
  }

  predicate Ambiguous(c: char) { c == '/' || c == '\\' || c == '%' }

  datatype EncodingError = Malformed | EncodedSeparator

  /** The string starts with an escape. */
  predicate EscapeAhead(s: string) { |s| >= 3 && s[0] == '%' && IsHex(s[1]) && IsHex(s[2]) }

  function EscapedOctet(s: string): (octet: nat)
    requires EscapeAhead(s)
    ensures octet < 256
  {
    16 * HexValue(s[1]) + HexValue(s[2])
  }

  /** An escape of an unreserved character is decoded, any other one is written in upper case. */
  function NormalEscape(octet: nat): string
    requires octet < 256
  {
    if Unreserved(octet as char) then [octet as char] else Escape(octet)
  }

  function Normalize(s: string, path: bool): Result<string, EncodingError> {
    if s == "" then Ok("")
    else if s[0] != '%' then
      match Normalize(s[1..], path)
      case Ok(rest) => Ok([s[0]] + rest)
      case Err(e) => Err(e)
    else if !EscapeAhead(s) then Err(Malformed)
    else
      var octet := EscapedOctet(s);
      if path && Ambiguous(octet as char) then Err(EncodedSeparator)
      else
        match Normalize(s[3..], path)
        case Ok(rest) => Ok(NormalEscape(octet) + rest)
        case Err(e) => Err(e)
  }

  function Prefixed(head: string, tail: Result<string, EncodingError>): Result<string, EncodingError> {
    if tail.Ok? then Ok(head + tail.value) else tail
  }

  lemma PrefixedEmpty(tail: Result<string, EncodingError>)
    ensures Prefixed("", tail) == tail
  {
    if tail.Ok? { assert "" + tail.value == tail.value; }
  }

  lemma PrefixedTwice(a: string, b: string, tail: Result<string, EncodingError>)
    ensures Prefixed(a, Prefixed(b, tail)) == Prefixed(a + b, tail)
  {
    if tail.Ok? { assert a + (b + tail.value) == a + b + tail.value; }
  }

  method NormalizePercentEncoding(value: string, path: bool) returns (r: Result<string, EncodingError>)
    ensures r == Normalize(value, path)
  {
    var output, index := "", 0;
    assert value[0..] == value;
    PrefixedEmpty(Normalize(value, path));
    while index < |value|
      invariant index <= |value|
      invariant Normalize(value, path) == Prefixed(output, Normalize(value[index..], path))
    {
      ghost var rest := value[index..];
      if value[index] != '%' {
        assert rest[1..] == value[index + 1..];
        PrefixedTwice(output, [value[index]], Normalize(rest[1..], path));
        output := output + [value[index]];
        index := index + 1;
        continue;
      }
      if index + 2 >= |value| || !IsHex(value[index + 1]) || !IsHex(value[index + 2]) { return Err(Malformed); }
      assert rest[3..] == value[index + 3..];
      var octet := 16 * HexValue(value[index + 1]) + HexValue(value[index + 2]);
      if path && Ambiguous(octet as char) { return Err(EncodedSeparator); }
      PrefixedTwice(output, NormalEscape(octet), Normalize(rest[3..], path));
      output := output + if Unreserved(octet as char) then [octet as char] else Escape(octet);
      index := index + 3;
    }
    assert output + "" == output;
    return Ok(output);
  }

  // ---- Normal forms ----

  /** Every escape is upper case, needed and, in a path, no separator. */
  ghost predicate Stable(s: string, path: bool) { Normalize(s, path) == Ok(s) }

  lemma StableEscape(octet: nat, path: bool)
    requires octet < 256 && !Unreserved(octet as char) && (path ==> !Ambiguous(octet as char))
    ensures Stable(Escape(octet), path)
  {
    var s := Escape(octet);
    assert EscapedOctet(s) == octet;
    assert s[3..] == "" && s + "" == s;
  }

  lemma StableChar(c: char, path: bool)
    requires c != '%'
    ensures Stable([c], path)
  {
    assert [c][1..] == "" && [c] + "" == [c];
  }

  /** Normalization works token by token. */
  lemma {:induction false} NormalizeConcat(a: string, b: string, path: bool)
    requires Normalize(a, path).Ok?
    ensures Normalize(a + b, path) == Prefixed(Normalize(a, path).value, Normalize(b, path))
    decreases |a|
  {
    if a == "" {
      assert a + b == b;
      PrefixedEmpty(Normalize(b, path));
    } else if a[0] != '%' {
      assert (a + b)[1..] == a[1..] + b;
      NormalizeConcat(a[1..], b, path);
      PrefixedTwice([a[0]], Normalize(a[1..], path).value, Normalize(b, path));
    } else {
      assert (a + b)[3..] == a[3..] + b;
      assert EscapedOctet(a + b) == EscapedOctet(a);
      NormalizeConcat(a[3..], b, path);
      PrefixedTwice(NormalEscape(EscapedOctet(a)), Normalize(a[3..], path).value, Normalize(b, path));
    }
  }

  lemma StableConcat(a: string, b: string, path: bool)
    requires Stable(a, path) && Stable(b, path)
    ensures Stable(a + b, path)
  {
    NormalizeConcat(a, b, path);
  }

  /** Normalization is idempotent. */
  lemma {:induction false} NormalizeIdempotent(s: string, path: bool)
    requires Normalize(s, path).Ok?
    ensures Stable(Normalize(s, path).value, path)
    decreases |s|
  {
    if s != "" {
      if s[0] != '%' {
        NormalizeIdempotent(s[1..], path);
        StableChar(s[0], path);
        StableConcat([s[0]], Normalize(s[1..], path).value, path);
      } else {
        var octet := EscapedOctet(s);
        NormalizeIdempotent(s[3..], path);
        if Unreserved(octet as char) { StableChar(octet as char, path); } else { StableEscape(octet, path); }
        StableConcat(NormalEscape(octet), Normalize(s[3..], path).value, path);
      }
    }
  }

  // ---- What is accepted ----

  /** Every percent sign starts an escape; in a path, none of a separator or of a percent sign. */
  ghost predicate WellEncoded(s: string, path: bool) {
    forall i :: 0 <= i < |s| && s[i] == '%' ==> EscapeAt(s, i, path)
  }

  ghost predicate EscapeAt(s: string, i: nat, path: bool)
    requires i < |s|
  {
    EscapeAhead(s[i..]) && (path ==> !Ambiguous(EscapedOctet(s[i..]) as char))
  }

  lemma WellEncodedTail(s: string, n: nat, path: bool)
    requires n <= |s| && forall i :: 0 <= i < n && s[i] == '%' ==> EscapeAt(s, i, path)
    ensures WellEncoded(s, path) <==> WellEncoded(s[n..], path)
  {
    assert forall i :: 0 <= i < |s| - n ==> s[n..][i..] == s[i + n..] && s[n..][i] == s[i + n];
    if WellEncoded(s, path) {
      forall i | 0 <= i < |s[n..]| && s[n..][i] == '%' ensures EscapeAt(s[n..], i, path) { assert EscapeAt(s, i + n, path); }
    }
    if WellEncoded(s[n..], path) {
      forall i | 0 <= i < |s| && s[i] == '%' ensures EscapeAt(s, i, path) {
        if i >= n { assert s[n..][i - n] == s[i]; assert EscapeAt(s[n..], i - n, path); }
      }
    }
  }

  /** Normalization refuses exactly the strings that are not well encoded. */
  lemma {:induction false} AcceptsIff(s: string, path: bool)
    ensures Normalize(s, path).Ok? <==> WellEncoded(s, path)
    decreases |s|
  {
    if s != "" {
      assert s[0..] == s;
      if s[0] != '%' {
        AcceptsIff(s[1..], path);
        WellEncodedTail(s, 1, path);
      } else if EscapeAhead(s) && !(path && Ambiguous(EscapedOctet(s) as char)) {
        AcceptsIff(s[3..], path);
        assert EscapeAt(s, 0, path);
        WellEncodedTail(s, 3, path);
      } else {
        assert !EscapeAt(s, 0, path);
      }
    }
  }

  // ---- Percent-decoded text ----

  /** ASCII characters stand for their octet; an escape stands for the octet it names. */
  datatype Symbol = Octet(value: nat) | Wide(c: char)

  function SymbolOf(c: char): Symbol { if c as int < 128 then Octet(c as int) else Wide(c) }

  function Decoded(s: string): seq<Symbol> {
    if s == "" then []
    else if EscapeAhead(s) then [Octet(EscapedOctet(s))] + Decoded(s[3..])
    else [SymbolOf(s[0])] + Decoded(s[1..])
  }

  /** Normalization does not change the text that is named. */
  lemma {:induction false} NormalizePreservesText(s: string, path: bool)
    requires Normalize(s, path).Ok?
    ensures Decoded(Normalize(s, path).value) == Decoded(s)
    decreases |s|
  {
    if s != "" {
      var y := Normalize(s, path).value;
      if s[0] != '%' {
        NormalizePreservesText(s[1..], path);
        assert y[1..] == Normalize(s[1..], path).value;
      } else {
        var octet := EscapedOctet(s);
        NormalizePreservesText(s[3..], path);
        if Unreserved(octet as char) {
          assert y[1..] == Normalize(s[3..], path).value;
        } else {
          assert y[3..] == Normalize(s[3..], path).value;
          assert EscapedOctet(y) == octet;
        }
      }
    }
  }

  /** In a stable string no escape hides a dot. */
  lemma {:induction false} NoHiddenDots(s: string, path: bool)
    requires Stable(s, path) && forall i :: 0 <= i < |Decoded(s)| ==> Decoded(s)[i] == SymbolOf('.')
    ensures |s| == |Decoded(s)| && forall i :: 0 <= i < |s| ==> s[i] == '.'
    decreases |s|
  {
    if s != "" {
      assert Decoded(s)[0] == SymbolOf('.');
      assert !EscapeAhead(s);
      assert Decoded(s)[1..] == Decoded(s[1..]);
      assert forall i :: 0 <= i < |Decoded(s[1..])| ==> Decoded(s[1..])[i] == Decoded(s)[i + 1];
      NoHiddenDots(s[1..], path);
    }
  }

  /** In a stable path no escape hides a separator or a percent sign. */
  lemma {:induction false} NoHiddenSeparators(s: string, c: char)
    requires Stable(s, true) && Ambiguous(c) && (c == '%' || c !in s)
    ensures SymbolOf(c) !in Decoded(s)
    decreases |s|
  {
    if s != "" {
      if s[0] == '%' {
        var octet := EscapedOctet(s);
        var rest := Normalize(s[3..], true).value;
        assert s == NormalEscape(octet) + rest;
        assert NormalEscape(octet)[0] == '%';
        assert s[3..] == rest;
        NoHiddenSeparators(s[3..], c);
      } else {
        assert ([s[0]] + Normalize(s[1..], true).value)[1..] == Normalize(s[1..], true).value;
        NoHiddenSeparators(s[1..], c);
        assert !EscapeAhead(s);
      }
    }
  }
}
