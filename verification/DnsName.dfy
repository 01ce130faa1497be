/**
 * Domain names on the wire: a decoder that follows compression pointers within a bound (sections
 * 4.1.2 and 4.1.4 of RFC 1035), and the encoder used for queries.
 */
module DnsName {
  import opened Common

  type Byte = b: int | 0 <= b < 256

  datatype Code =
    | NameInvalid | ResponseInvalid | TransactionMismatch | QuestionMismatch | TransactionInvalid | CnameMismatch

  const MAX_POINTER_JUMPS: nat := 16

  /** Domain canonicalization; None when the name is not a domain. */
  type Canonicalizer = string -> Option<string>

  // ---- Text ----

  predicate Ascii(raw: seq<Byte>) { forall i :: 0 <= i < |raw| ==> raw[i] < 128 }

  function Text(raw: seq<Byte>): (s: string)
    requires Ascii(raw)
    ensures |s| == |raw| && forall i :: 0 <= i < |s| ==> s[i] == raw[i] as char
  {
    seq(|raw|, i requires 0 <= i < |raw| && raw[i] < 128 => raw[i] as char)
  }

  predicate AsciiText(s: string) { forall i :: 0 <= i < |s| ==> (s[i] as int) < 128 }

  function Raw(s: string): (raw: seq<Byte>)
    requires AsciiText(s)
    ensures |raw| == |s| && Ascii(raw) && Text(raw) == s
  {
    var raw: seq<Byte> := seq(|s|, i requires 0 <= i < |s| && (s[i] as int) < 128 => s[i] as int);
    assert Text(raw) == s;
    raw
  }

  function SplitDots(s: string): (labels: seq<string>)
    ensures |labels| >= 1
  {
    if s == "" then [""]
    else if s[0] == '.' then [""] + SplitDots(s[1..])
    else
      var rest := SplitDots(s[1..]);
      [[s[0]] + rest[0]] + rest[1..]
  }

  function JoinDots(labels: seq<string>): string {
    if labels == [] then ""
    else if |labels| == 1 then labels[0]
    else labels[0] + "." + JoinDots(labels[1..])
  }

  // ---- Decoding, run by run ----

  /** Labels up to a terminator or a pointer; `end` is the offset just after that terminator or pointer. */
  datatype Run = Run(labels: seq<string>, end: nat, pointer: Option<nat>)

  /** The offset in the low fourteen bits of a pointer. */
  function PointerTo(high: Byte, low: Byte): nat
    requires high >= 0xC0
  {
    (high as int - 0xC0) * 256 + low as int
  }

  function ReadRun(packet: seq<Byte>, offset: nat): Option<Run>
    decreases |packet| - offset
  {
    if offset >= |packet| then None
    else
      var length := packet[offset];
      if length >= 0xC0 then
        if offset + 1 >= |packet| then None
        else Some(Run([], offset + 2, Some(PointerTo(length, packet[offset + 1]))))
      else if length >= 0x40 then None
      else if length == 0 then Some(Run([], offset + 1, None))
      else if offset + 1 + length > |packet| || !Ascii(packet[offset + 1..offset + 1 + length]) then None
      else
        var rest := ReadRun(packet, offset + 1 + length);
        if rest.None? then None
        else Some(rest.value.(labels := [Text(packet[offset + 1..offset + 1 + length])] + rest.value.labels))
  }

  /** The labels of a name: its first run, followed by the name its pointer refers to. */
  function NameLabels(packet: seq<Byte>, offset: nat, visited: set<nat>, jumps: nat): Option<seq<string>>
    requires jumps <= MAX_POINTER_JUMPS
    decreases MAX_POINTER_JUMPS - jumps
  {
    var run := ReadRun(packet, offset);
    if run.None? then None
    else if run.value.pointer.None? then Some(run.value.labels)
    else
      var pointer := run.value.pointer.value;
      if pointer >= |packet| || pointer in visited || jumps >= MAX_POINTER_JUMPS then None
      else
        var rest := NameLabels(packet, pointer, visited + {pointer}, jumps + 1);
        if rest.None? then None else Some(run.value.labels + rest.value)
  }

  function NameOf(labels: seq<string>, canon: Canonicalizer): Result<string, Code> {
    if labels == [] then Ok("")
    else
      match canon(JoinDots(labels))
      case Some(name) => Ok(name)
      case None => Err(ResponseInvalid)
  }

  /** A name and the offset at which reading resumes: just after the first run. */
  function Decode(packet: seq<Byte>, start: nat, canon: Canonicalizer): Result<(string, nat), Code> {
    var labels := NameLabels(packet, start, {}, 0);
    if labels.None? then Err(ResponseInvalid)
    else
      match NameOf(labels.value, canon)
      case Ok(name) => Ok((name, ReadRun(packet, start).value.end))
      case Err(code) => Err(code)
  }

  lemma {:induction false} RunResumes(packet: seq<Byte>, offset: nat)
    ensures ReadRun(packet, offset).Some? ==> offset < ReadRun(packet, offset).value.end <= |packet|
    decreases |packet| - offset
  {
    if offset < |packet| && 0 < packet[offset] < 0x40 && offset + 1 + packet[offset] <= |packet| {
      RunResumes(packet, offset + 1 + packet[offset]);
    }
  }

  /** Reading resumes after the start and inside the packet. */
  lemma DecodeResumes(packet: seq<Byte>, start: nat, canon: Canonicalizer)
    ensures Decode(packet, start, canon).Ok? ==> start < Decode(packet, start, canon).value.1 <= |packet|
  {
    RunResumes(packet, start);
  }

  // ---- The decoding loop ----

  /** What is still to be read from `offset`, after the labels already read. */
  ghost function Rest(packet: seq<Byte>, labels: seq<string>, offset: nat, visited: set<nat>, jumps: nat): Option<seq<string>>
    requires jumps <= MAX_POINTER_JUMPS
  {
    var rest := NameLabels(packet, offset, visited, jumps);
    if rest.None? then None else Some(labels + rest.value)
  }

  /** Reading one label moves it from what is left to what has been read. */
  lemma RestLabel(packet: seq<Byte>, labels: seq<string>, offset: nat, visited: set<nat>, jumps: nat, word: string)
    requires jumps <= MAX_POINTER_JUMPS && offset < |packet| && 0 < packet[offset] < 0x40 && offset + 1 + packet[offset] <= |packet|
    requires var raw := packet[offset + 1..offset + 1 + packet[offset]]; Ascii(raw) && word == Text(raw)
    ensures Rest(packet, labels, offset, visited, jumps) == Rest(packet, labels + [word], offset + 1 + packet[offset], visited, jumps)
  {
    var next := offset + 1 + packet[offset];
    var run := ReadRun(packet, next);
    if run.Some? {
      assert labels + [word] + run.value.labels == labels + ([word] + run.value.labels);
      if run.value.pointer.Some? {
        var pointer := run.value.pointer.value;
        if pointer < |packet| && pointer !in visited && jumps < MAX_POINTER_JUMPS {
          var rest := NameLabels(packet, pointer, visited + {pointer}, jumps + 1);
          if rest.Some? {
            assert labels + [word] + (run.value.labels + rest.value) == labels + ([word] + run.value.labels + rest.value);
          }
        }
      }
    }
  }

  lemma RestPointer(packet: seq<Byte>, labels: seq<string>, offset: nat, visited: set<nat>, jumps: nat, pointer: nat)
    requires jumps < MAX_POINTER_JUMPS && offset + 1 < |packet| && packet[offset] >= 0xC0
    requires pointer == PointerTo(packet[offset], packet[offset + 1]) && pointer < |packet| && pointer !in visited
    ensures Rest(packet, labels, offset, visited, jumps) == Rest(packet, labels, pointer, visited + {pointer}, jumps + 1)
  {
    var rest := NameLabels(packet, pointer, visited + {pointer}, jumps + 1);
    if rest.Some? { assert [] + rest.value == rest.value; }
  }

  /** The first run is still being read, or its end is known. */
  ghost predicate Resuming(packet: seq<Byte>, start: nat, offset: nat, consumed: Option<nat>) {
    var first, here := ReadRun(packet, start), ReadRun(packet, offset);
    if consumed.None? then (first.None? <==> here.None?) && (first.Some? ==> first.value.end == here.value.end)
    else first.Some? && consumed.value == first.value.end
  }

  lemma ResumingLabel(packet: seq<Byte>, start: nat, offset: nat, consumed: Option<nat>)
    requires Resuming(packet, start, offset, consumed) && offset < |packet| && 0 < packet[offset] < 0x40
    requires offset + 1 + packet[offset] <= |packet| && Ascii(packet[offset + 1..offset + 1 + packet[offset]])
    ensures Resuming(packet, start, offset + 1 + packet[offset], consumed)
  {
  }

  method DecodeName(packet: seq<Byte>, start: nat, canon: Canonicalizer) returns (r: Result<(string, nat), Code>)
    ensures r == Decode(packet, start, canon)
    ensures r.Ok? ==> start < r.value.1 <= |packet|
  {
    DecodeResumes(packet, start, canon);
    var labels: seq<string> := [];
    var visited: set<nat> := {};
    var offset: nat, jumps: nat := start, 0;
    var consumed: Option<nat> := None;
    assert Rest(packet, labels, offset, visited, jumps) == NameLabels(packet, start, {}, 0) by {
      var rest := NameLabels(packet, start, {}, 0);
      if rest.Some? { assert [] + rest.value == rest.value; }
    }
    while true
      invariant jumps <= MAX_POINTER_JUMPS
      invariant Rest(packet, labels, offset, visited, jumps) == NameLabels(packet, start, {}, 0)
      invariant Resuming(packet, start, offset, consumed)
      decreases MAX_POINTER_JUMPS - jumps, |packet| - offset
    {
      if offset >= |packet| { return Err(ResponseInvalid); }
      var length := packet[offset];
      if length >= 0xC0 {
        if offset + 1 >= |packet| { return Err(ResponseInvalid); }
        var pointer := PointerTo(length, packet[offset + 1]);
        if pointer >= |packet| || pointer in visited || jumps >= MAX_POINTER_JUMPS { return Err(ResponseInvalid); }
        RestPointer(packet, labels, offset, visited, jumps, pointer);
        visited := visited + {pointer};
        jumps := jumps + 1;
        if consumed.None? { consumed := Some(offset + 2); }
        offset := pointer;
        continue;
      }
      if length >= 0x40 { return Err(ResponseInvalid); }
      if length == 0 {
        offset := offset + 1;
        break;
      }
      if offset + 1 + length > |packet| { return Err(ResponseInvalid); }
      var raw := packet[offset + 1..offset + 1 + length];
      if !Ascii(raw) { return Err(ResponseInvalid); }
      RestLabel(packet, labels, offset, visited, jumps, Text(raw));
      ResumingLabel(packet, start, offset, consumed);
      labels := labels + [Text(raw)];
      offset := offset + 1 + length;
    }
    assert labels + [] == labels;
    var resume := if consumed.Some? then consumed.value else offset;
    if labels == [] { return Ok(("", resume)); }
    match canon(JoinDots(labels)) {
      case Some(name) => return Ok((name, resume));
      case None => return Err(ResponseInvalid);
    }
  }
}
