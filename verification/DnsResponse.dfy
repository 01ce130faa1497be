/** The response parser: what an accepted packet is made of (sections 4.1.1 to 4.1.4 of RFC 1035). */
module DnsResponse {
  import opened Common
  import opened DnsName
  import opened DnsQuery

  const TYPE_A: Word := 1
  const TYPE_CNAME: Word := 5
  const TYPE_AAAA: Word := 28
  const MAX_MESSAGE: nat := 4096
  const MAX_RECORDS: nat := 64

  /** The packet under inspection, the question it has to answer, and how many of its records are answers. */
  datatype Context = Context(packet: seq<Byte>, hostname: string, queryType: Word, answers: nat, canon: Canonicalizer)

  /** Addresses are kept as their octets. */
  datatype Parsed = Parsed(addresses: seq<seq<Byte>>, cnames: seq<string>)

  // ---- Records ----

  datatype View = View(owner: string, kind: Word, category: Word, dataStart: nat, dataEnd: nat)

  /** The fixed fields after the owner's name, and the extent of the data. */
  function ReadFields(packet: seq<Byte>, name: Result<(string, nat), Code>): Option<View> {
    match name
    case Err(_) => None
    case Ok((owner, at)) =>
      if at + 10 > |packet| then None
      else
        var end := at + 10 + Word16(packet, at + 8) as int;
        if end > |packet| then None else Some(View(owner, Word16(packet, at), Word16(packet, at + 2), at + 10, end))
  }

  function ReadRecord(packet: seq<Byte>, offset: nat, canon: Canonicalizer): Option<View> {
    ReadFields(packet, Decode(packet, offset, canon))
  }

  datatype Scan = Scan(offset: nat, addresses: seq<seq<Byte>>, cnames: seq<string>)

  predicate Allowed(c: Context, s: Scan, name: string) { name == c.hostname || name in s.cnames }

  function ExpectedLength(queryType: Word): nat { if queryType == TYPE_A then 4 else 16 }

  function TakeCname(c: Context, s: Scan, v: View): Option<Scan> {
    if !Allowed(c, s, v.owner) then None
    else
      match Decode(c.packet, v.dataStart, c.canon)
      case Err(_) => None
      case Ok((target, consumed)) =>
        if consumed != v.dataEnd || Allowed(c, s, target) then None
        else Some(Scan(v.dataEnd, s.addresses, s.cnames + [target]))
  }

  function TakeAddress(c: Context, s: Scan, v: View): Option<Scan>
    requires v.dataStart <= v.dataEnd <= |c.packet|
  {
    if !Allowed(c, s, v.owner) || v.dataEnd - v.dataStart != ExpectedLength(c.queryType) then None
    else Some(Scan(v.dataEnd, s.addresses + [c.packet[v.dataStart..v.dataEnd]], s.cnames))
  }

  predicate IsAnswer(c: Context, index: nat, v: View) { index < c.answers && v.category == IN }

  function TakeRecord(c: Context, index: nat, s: Scan): Option<Scan> {
    match ReadRecord(c.packet, s.offset, c.canon)
    case None => None
    case Some(v) =>
      if IsAnswer(c, index, v) && v.kind == TYPE_CNAME then TakeCname(c, s, v)
      else if IsAnswer(c, index, v) && v.kind == c.queryType then TakeAddress(c, s, v)
      else Some(s.(offset := v.dataEnd))
  }

  function TakeRecords(c: Context, index: nat, total: nat, s: Scan): Option<Scan>
    decreases total - index
  {
    if index >= total then Some(s)
    else
      match TakeRecord(c, index, s)
      case None => None
      case Some(next) => TakeRecords(c, index + 1, total, next)
  }

  // ---- Packets ----

  /** A response to a standard query, not truncated, reserved bit clear, no error, one question. */
  predicate HeaderFits(packet: seq<Byte>)
    requires |packet| >= 12
  {
    var flags := Word16(packet, 2);
    && flags >= 0x8000 && flags / 0x800 % 16 == 0 && flags / 0x200 % 2 == 0 && flags / 0x40 % 2 == 0 && flags % 16 == 0
    && Word16(packet, 4) == 1 && RecordCount(packet) <= MAX_RECORDS
  }

  function RecordCount(packet: seq<Byte>): nat
    requires |packet| >= 12
  {
    Word16(packet, 6) as int + Word16(packet, 8) as int + Word16(packet, 10) as int
  }

  predicate NoRepeats<T(==)>(s: seq<T>) { forall i, j :: 0 <= i < j < |s| ==> s[i] != s[j] }

  function ContextOf(packet: seq<Byte>, hostname: string, queryType: Word, canon: Canonicalizer): Context
    requires |packet| >= 12
  {
    Context(packet, hostname, queryType, Word16(packet, 6), canon)
  }

  function Parse(packet: seq<Byte>, hostname: string, queryType: Word, id: Word, canon: Canonicalizer): Result<Parsed, Code> {
    if !(12 <= |packet| <= MAX_MESSAGE) then Err(ResponseInvalid)
    else if Word16(packet, 0) != id then Err(TransactionMismatch)
    else if !HeaderFits(packet) then Err(ResponseInvalid)
    else
      match Decode(packet, 12, canon)
      case Err(code) => Err(code)
      case Ok((question, at)) =>
        if at + 4 > |packet| then Err(ResponseInvalid)
        else if question != hostname || Word16(packet, at) != queryType || Word16(packet, at + 2) != IN then Err(QuestionMismatch)
        else
          ParseBody(packet, hostname, queryType, canon, at + 4)
  }

  /** Everything after the question. */
  function ParseBody(packet: seq<Byte>, hostname: string, queryType: Word, canon: Canonicalizer, start: nat): Result<Parsed, Code>
    requires |packet| >= 12
  {
    match TakeRecords(ContextOf(packet, hostname, queryType, canon), 0, RecordCount(packet), Scan(start, [], []))
    case None => Err(ResponseInvalid)
    case Some(s) =>
      if s.offset != |packet| || !NoRepeats(s.addresses) then Err(ResponseInvalid)
      else Ok(Parsed(s.addresses, s.cnames))
  }

  method NextRecord(packet: seq<Byte>, offset: nat, canon: Canonicalizer) returns (r: Option<View>)
    ensures r == ReadRecord(packet, offset, canon)
  {
    var owner := DecodeName(packet, offset, canon);
    if owner.Err? { return None; }
    var at := owner.value.1;
    if at + 10 > |packet| { return None; }
    var end := at + 10 + Word16(packet, at + 8) as int;
    if end > |packet| { return None; }
    return Some(View(owner.value.0, Word16(packet, at), Word16(packet, at + 2), at + 10, end));
  }

  ghost predicate AllowedSet(c: Context, s: Scan, allowed: set<string>) {
    forall name :: name in allowed <==> Allowed(c, s, name)
  }

  method AcceptCname(c: Context, s: Scan, v: View, allowed: set<string>) returns (r: Option<Scan>, allowed': set<string>)
    requires AllowedSet(c, s, allowed)
    ensures r == TakeCname(c, s, v) && (r.Some? ==> AllowedSet(c, r.value, allowed'))
  {
    if v.owner !in allowed { return None, allowed; }
    var target := DecodeName(c.packet, v.dataStart, c.canon);
    if target.Err? { return None, allowed; }
    if target.value.1 != v.dataEnd || target.value.0 in allowed || target.value.0 in s.cnames { return None, allowed; }
    r := Some(Scan(v.dataEnd, s.addresses, s.cnames + [target.value.0]));
    allowed' := allowed + {target.value.0};
  }

  /** Reads one record after the other, keeping the set of names an answer may belong to. */
  method ParseRecords(c: Context, total: nat, start: nat) returns (r: Option<Scan>)
    ensures r == TakeRecords(c, 0, total, Scan(start, [], []))
  {
    var s, allowed := Scan(start, [], []), {c.hostname};
    for index := 0 to total
      invariant AllowedSet(c, s, allowed)
      invariant TakeRecords(c, 0, total, Scan(start, [], [])) == TakeRecords(c, index, total, s)
    {
      var record := NextRecord(c.packet, s.offset, c.canon);
      if record.None? { return None; }
      var v := record.value;
      if index < c.answers && v.category == IN && v.kind == TYPE_CNAME {
        r, allowed := AcceptCname(c, s, v, allowed);
        if r.None? { return None; }
        s := r.value;
      } else if index < c.answers && v.category == IN && v.kind == c.queryType {
        if v.owner !in allowed || v.dataEnd - v.dataStart != ExpectedLength(c.queryType) { return None; }
        s := Scan(v.dataEnd, s.addresses + [c.packet[v.dataStart..v.dataEnd]], s.cnames);
      } else {
        s := s.(offset := v.dataEnd);
      }
    }
    return Some(s);
  }

  method ParseResponse(packet: seq<Byte>, hostname: string, queryType: Word, id: Word, canon: Canonicalizer)
    returns (r: Result<Parsed, Code>)
    ensures r == Parse(packet, hostname, queryType, id, canon)
  {
    if !(12 <= |packet| <= MAX_MESSAGE) { return Err(ResponseInvalid); }
    if Word16(packet, 0) != id { return Err(TransactionMismatch); }
    if !HeaderFits(packet) { return Err(ResponseInvalid); }
    var question := DecodeName(packet, 12, canon);
    if question.Err? { return Err(question.error); }
    var at := question.value.1;
    if at + 4 > |packet| { return Err(ResponseInvalid); }
    if question.value.0 != hostname || Word16(packet, at) != queryType || Word16(packet, at + 2) != IN { return Err(QuestionMismatch); }
    r := ParseAnswers(packet, hostname, queryType, canon, at + 4);
  }

  method ParseAnswers(packet: seq<Byte>, hostname: string, queryType: Word, canon: Canonicalizer, start: nat) returns (r: Result<Parsed, Code>)
    requires |packet| >= 12
    ensures r == ParseBody(packet, hostname, queryType, canon, start)
  {
    var s := ParseRecords(ContextOf(packet, hostname, queryType, canon), RecordCount(packet), start);
    if s.None? { return Err(ResponseInvalid); }
    if s.value.offset != |packet| || !NoRepeats(s.value.addresses) { return Err(ResponseInvalid); }
    return Ok(Parsed(s.value.addresses, s.value.cnames));
  }
}
