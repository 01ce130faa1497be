/** Bytes written by the rules of RFC 1035 and read back: compressed names, records and a whole response. */
module DnsRoundTrip {
  import opened Common
  import opened DnsName
  import opened DnsQuery
  import opened DnsResponse

  /** These bytes stand at this offset. */
  ghost predicate At(packet: seq<Byte>, offset: nat, bytes: seq<Byte>) {
    offset + |bytes| <= |packet| && packet[offset..offset + |bytes|] == bytes
  }

  lemma AtConcat(packet: seq<Byte>, offset: nat, a: seq<Byte>, b: seq<Byte>)
    requires At(packet, offset, a + b)
    ensures At(packet, offset, a) && At(packet, offset + |a|, b)
  {
    Slices(packet, offset, a, b);
  }

  lemma AtMiddle(a: seq<Byte>, b: seq<Byte>, c: seq<Byte>)
    ensures At(a + b + c, |a|, b)
  {
  }

  // ---- Pointers ----

  /** The two top bits set, and an offset in the other fourteen (section 4.1.4). */
  function PointerBytes(target: nat): (b: seq<Byte>)
    requires target < 16384
    ensures |b| == 2
  {
    [0xC0 + target / 256, target % 256]
  }

  /** A pointer is read as the offset it was written for. */
  lemma PointerRoundTrip(packet: seq<Byte>, offset: nat, target: nat)
    requires target < 16384 && At(packet, offset, PointerBytes(target))
    ensures ReadRun(packet, offset) == Some(Run([], offset + 2, Some(target)))
  {
    assert packet[offset] == packet[offset..offset + 2][0] && packet[offset + 1] == packet[offset..offset + 2][1];
    assert PointerTo(packet[offset], packet[offset + 1]) == target;
  }

  // ---- Compressed names ----

  /** Labels without the end of a name. */
  function LabelBytes(labels: seq<string>): seq<Byte>
    requires AllEncodable(labels)
  {
    if labels == [] then [] else [|labels[0]| as Byte] + Raw(labels[0]) + LabelBytes(labels[1..])
  }

  ghost function Prepended(labels: seq<string>, rest: Option<Run>): Option<Run> {
    if rest.None? then None else Some(rest.value.(labels := labels + rest.value.labels))
  }

  lemma {:induction false} ReadLabels(packet: seq<Byte>, offset: nat, labels: seq<string>)
    requires AllEncodable(labels) && At(packet, offset, LabelBytes(labels))
    ensures ReadRun(packet, offset) == Prepended(labels, ReadRun(packet, offset + |LabelBytes(labels)|))
    decreases |labels|
  {
    if labels == [] {
      PrependNone(ReadRun(packet, offset));
    } else {
      var word, rest := labels[0], labels[1..];
      assert Encodable(word);
      var head: seq<Byte> := [|word| as Byte] + Raw(word);
      assert LabelBytes(labels) == head + LabelBytes(rest);
      AtConcat(packet, offset, head, LabelBytes(rest));
      ReadLabel(packet, offset, word);
      ReadLabels(packet, offset + |head|, rest);
      PrependOne(word, rest, ReadRun(packet, offset + |LabelBytes(labels)|));
      assert [word] + rest == labels;
    }
  }

  lemma PrependNone(run: Option<Run>)
    ensures Prepended([], run) == run
  {
    if run.Some? { assert [] + run.value.labels == run.value.labels; }
  }

  lemma PrependOne(word: string, rest: seq<string>, run: Option<Run>)
    ensures Prepended([word], Prepended(rest, run)) == Prepended([word] + rest, run)
  {
    if run.Some? { assert [word] + (rest + run.value.labels) == [word] + rest + run.value.labels; }
  }

  /** A name that ends in a pointer is its own labels followed by those of the name pointed to; reading resumes after the pointer. */
  lemma CompressedRoundTrip(packet: seq<Byte>, offset: nat, labels: seq<string>, target: nat, rest: seq<string>, end: nat)
    requires AllEncodable(labels) && target < 16384 && target < |packet|
    requires At(packet, offset, LabelBytes(labels) + PointerBytes(target)) && ReadRun(packet, target) == Some(Run(rest, end, None))
    ensures NameLabels(packet, offset, {}, 0) == Some(labels + rest)
    ensures ReadRun(packet, offset).Some? && ReadRun(packet, offset).value.end == offset + |LabelBytes(labels)| + 2
  {
    AtConcat(packet, offset, LabelBytes(labels), PointerBytes(target));
    PointerRoundTrip(packet, offset + |LabelBytes(labels)|, target);
    ReadLabels(packet, offset, labels);
    assert labels + [] == labels;
  }

  /** A pointer out of the packet, to a place already visited, or after sixteen others makes the name invalid. */
  lemma PointerRefused(packet: seq<Byte>, offset: nat, target: nat, visited: set<nat>, jumps: nat)
    requires target < 16384 && At(packet, offset, PointerBytes(target)) && jumps <= 16
    requires target >= |packet| || target in visited || jumps == 16
    ensures NameLabels(packet, offset, visited, jumps).None?
  {
    PointerRoundTrip(packet, offset, target);
  }

  // ---- Records ----

  /** Type, class, time to live and data length (section 4.1.3). */
  function RecordFields(kind: Word, category: Word, ttl: seq<Byte>, length: Word): (b: seq<Byte>)
    requires |ttl| == 4
    ensures |b| == 10
  {
    WordBytes(kind) + WordBytes(category) + ttl + WordBytes(length)
  }

  lemma FieldsRead(packet: seq<Byte>, at: nat, kind: Word, category: Word, ttl: seq<Byte>, length: Word)
    requires |ttl| == 4 && At(packet, at, RecordFields(kind, category, ttl, length))
    ensures Word16(packet, at) == kind && Word16(packet, at + 2) == category && Word16(packet, at + 8) == length
  {
    var fields := packet[at..at + 10];
    assert packet[at..at + 2] == fields[..2] == WordBytes(kind);
    assert packet[at + 2..at + 4] == fields[2..4] == WordBytes(category);
    assert packet[at + 8..at + 10] == fields[8..10] == WordBytes(length);
    WordReads(packet, at, kind);
    WordReads(packet, at + 2, category);
    WordReads(packet, at + 8, length);
  }

  /** A record is read back with the owner, type, class and data it was written with. */
  lemma RecordRoundTrip(packet: seq<Byte>, offset: nat, at: nat, owner: string, kind: Word, category: Word, ttl: seq<Byte>, data: seq<Byte>, canon: Canonicalizer)
    requires Decode(packet, offset, canon) == Ok((owner, at)) && |ttl| == 4 && |data| < 65536
    requires At(packet, at, RecordFields(kind, category, ttl, |data|)) && at + 10 + |data| <= |packet|
    ensures ReadRecord(packet, offset, canon) == Some(View(owner, kind, category, at + 10, at + 10 + |data|))
  {
    FieldsRead(packet, at, kind, category, ttl, |data|);
    assert ReadFields(packet, Ok((owner, at))) == Some(View(owner, kind, category, at + 10, at + 10 + |data|));
  }

  // ---- The header ----

  /** The bit of a word with this weight. */
  function Flag(w: Word, weight: int): int
    requires weight > 0
  {
    w / weight % 2
  }

  /** A response (QR), a standard query (OPCODE), not truncated (TC), reserved bit clear (Z), no error (RCODE), one question (section 4.1.1). */
  ghost predicate ResponseHeader(packet: seq<Byte>)
    requires |packet| >= 12
  {
    var flags := Word16(packet, 2);
    && Flag(flags, 0x8000) == 1
    && Flag(flags, 0x4000) == 0 && Flag(flags, 0x2000) == 0 && Flag(flags, 0x1000) == 0 && Flag(flags, 0x0800) == 0
    && Flag(flags, 0x0200) == 0 && Flag(flags, 0x0040) == 0
    && Flag(flags, 8) == 0 && Flag(flags, 4) == 0 && Flag(flags, 2) == 0 && Flag(flags, 1) == 0
    && Word16(packet, 4) == 1 && Word16(packet, 6) as int + Word16(packet, 8) as int + Word16(packet, 10) as int <= 64
  }

  lemma OpcodeMeaning(flags: Word)
    ensures flags / 0x800 % 16 == 0 <==> Flag(flags, 0x4000) == 0 && Flag(flags, 0x2000) == 0 && Flag(flags, 0x1000) == 0 && Flag(flags, 0x0800) == 0
  {
    FourBits(flags / 0x800);
    assert flags / 0x1000 == flags / 0x800 / 2 && flags / 0x2000 == flags / 0x800 / 4 && flags / 0x4000 == flags / 0x800 / 8;
  }

  lemma LowBit16(x: nat)
    ensures x % 16 == 0 <==> x % 2 == 0 && x / 2 % 8 == 0
  {
  }

  lemma LowBit8(x: nat)
    ensures x % 8 == 0 <==> x % 2 == 0 && x / 2 % 4 == 0
  {
  }

  lemma LowBit4(x: nat)
    ensures x % 4 == 0 <==> x % 2 == 0 && x / 2 % 2 == 0
  {
  }

  lemma FourBits(x: nat)
    ensures x % 16 == 0 <==> x / 8 % 2 == 0 && x / 4 % 2 == 0 && x / 2 % 2 == 0 && x % 2 == 0
  {
    LowBit16(x);
    LowBit8(x / 2);
    LowBit4(x / 2 / 2);
    assert x / 2 / 2 == x / 4 && x / 4 / 2 == x / 8;
  }

  lemma HeaderMeaning(packet: seq<Byte>)
    requires |packet| >= 12
    ensures HeaderFits(packet) <==> ResponseHeader(packet)
  {
    OpcodeMeaning(Word16(packet, 2));
    FourBits(Word16(packet, 2));
  }

  // ---- A whole response ----

  function ResponseHead(id: Word, answers: Word): (h: seq<Byte>)
    ensures |h| == 12
  {
    WordBytes(id) + WordBytes(0x8180) + WordBytes(1) + WordBytes(answers) + WordBytes(0) + WordBytes(0)
  }

  function Question(hostname: string, queryType: Word): seq<Byte>
    requires AllEncodable(SplitDots(hostname))
  {
    Encoded(SplitDots(hostname)) + (WordBytes(queryType) + WordBytes(1))
  }

  /** One address record whose owner is a pointer to the question's name. */
  function AddressRecord(queryType: Word, ttl: seq<Byte>, address: seq<Byte>): seq<Byte>
    requires |ttl| == 4 && |address| < 65536
  {
    PointerBytes(12) + RecordFields(queryType, 1, ttl, |address|) + address
  }

  function AddressResponse(hostname: string, queryType: Word, id: Word, ttl: seq<Byte>, address: seq<Byte>): seq<Byte>
    requires AllEncodable(SplitDots(hostname)) && |ttl| == 4 && |address| < 65536
  {
    ResponseHead(id, 1) + Question(hostname, queryType) + AddressRecord(queryType, ttl, address)
  }

  lemma HeadReads(packet: seq<Byte>, id: Word, answers: Word)
    requires At(packet, 0, ResponseHead(id, answers)) && answers <= 64
    ensures Word16(packet, 0) == id && HeaderFits(packet) && Word16(packet, 6) == answers && RecordCount(packet) == answers as int
  {
    var head := packet[0..12];
    assert packet[0..2] == head[0..2] == WordBytes(id);
    assert packet[2..4] == head[2..4] == WordBytes(0x8180);
    assert packet[4..6] == head[4..6] == WordBytes(1);
    assert packet[6..8] == head[6..8] == WordBytes(answers);
    assert packet[8..10] == head[8..10] == WordBytes(0);
    assert packet[10..12] == head[10..12] == WordBytes(0);
    WordReads(packet, 0, id);
    WordReads(packet, 2, 0x8180);
    WordReads(packet, 4, 1);
    WordReads(packet, 6, answers);
    WordReads(packet, 8, 0);
    WordReads(packet, 10, 0);
  }

  lemma QuestionReads(packet: seq<Byte>, hostname: string, queryType: Word, canon: Canonicalizer)
    requires AllEncodable(SplitDots(hostname)) && canon(hostname) == Some(hostname) && At(packet, 12, Question(hostname, queryType))
    ensures var at := 12 + |Encoded(SplitDots(hostname))|;
      && ReadRun(packet, 12) == Some(Run(SplitDots(hostname), at, None))
      && Decode(packet, 12, canon) == Ok((hostname, at)) && at + 4 <= |packet|
      && Word16(packet, at) == queryType && Word16(packet, at + 2) == 1
  {
    var encoded := Encoded(SplitDots(hostname));
    AtConcat(packet, 12, encoded, WordBytes(queryType) + WordBytes(1));
    AtConcat(packet, 12 + |encoded|, WordBytes(queryType), WordBytes(1));
    ReadEncoded(packet, 12, SplitDots(hostname));
    WordReads(packet, 12 + |encoded|, queryType);
    WordReads(packet, 12 + |encoded| + 2, 1);
    HostDecodes(packet, 12, hostname, 12 + |encoded|, canon);
  }

  /** Once its labels are known, a name decodes to the hostname. */
  lemma PointerFollowed(packet: seq<Byte>, offset: nat, target: nat, rest: seq<string>, end: nat)
    requires ReadRun(packet, offset) == Some(Run([], offset + 2, Some(target))) && target < |packet|
    requires ReadRun(packet, target) == Some(Run(rest, end, None))
    ensures NameLabels(packet, offset, {}, 0) == Some(rest)
  {
    assert [] + rest == rest;
  }

  lemma PointedOwner(packet: seq<Byte>, offset: nat, hostname: string, end: nat, canon: Canonicalizer)
    requires At(packet, offset, PointerBytes(12)) && 12 < |packet| && canon(hostname) == Some(hostname)
    requires ReadRun(packet, 12) == Some(Run(SplitDots(hostname), end, None))
    ensures Decode(packet, offset, canon) == Ok((hostname, offset + 2))
  {
    PointerRoundTrip(packet, offset, 12);
    PointerFollowed(packet, offset, 12, SplitDots(hostname), end);
    HostDecodes(packet, offset, hostname, offset + 2, canon);
  }

  lemma AnswerLayout(packet: seq<Byte>, start: nat, queryType: Word, ttl: seq<Byte>, address: seq<Byte>)
    requires |ttl| == 4 && |address| < 65536 && At(packet, start, AddressRecord(queryType, ttl, address))
    ensures At(packet, start, PointerBytes(12)) && At(packet, start + 2, RecordFields(queryType, 1, ttl, |address|)) && At(packet, start + 12, address)
  {
    var fields := RecordFields(queryType, 1, ttl, |address|);
    AtConcat(packet, start, PointerBytes(12) + fields, address);
    AtConcat(packet, start, PointerBytes(12), fields);
  }

  lemma OneAnswer(c: Context, start: nat, address: seq<Byte>)
    requires c.answers == 1 && c.queryType != TYPE_CNAME && |address| == ExpectedLength(c.queryType)
    requires ReadRecord(c.packet, start, c.canon) == Some(View(c.hostname, c.queryType, 1, start + 12, start + 12 + |address|))
    requires At(c.packet, start + 12, address)
    ensures TakeRecords(c, 0, 1, Scan(start, [], [])) == Some(Scan(start + 12 + |address|, [address], []))
  {
    var next := Scan(start + 12 + |address|, [address], []);
    assert [] + [address] == [address];
    assert TakeRecord(c, 0, Scan(start, [], [])) == Some(next);
    assert TakeRecords(c, 1, 1, next) == Some(next);
  }

  lemma ResponseLayout(hostname: string, queryType: Word, id: Word, ttl: seq<Byte>, address: seq<Byte>)
    requires AllEncodable(SplitDots(hostname)) && |ttl| == 4 && |address| < 65536
    ensures LaidOut(AddressResponse(hostname, queryType, id, ttl, address), hostname, queryType, id, ttl, address)
  {
    var head, question, record := ResponseHead(id, 1), Question(hostname, queryType), AddressRecord(queryType, ttl, address);
    AtMiddle(head, question, record);
    AtMiddle(head + question, record, []);
    AtMiddle([], head, question + record);
    assert head + question + record + [] == head + question + record;
    assert [] + head + (question + record) == head + question + record;
  }

  lemma BodyReads(packet: seq<Byte>, start: nat, hostname: string, queryType: Word, ttl: seq<Byte>, address: seq<Byte>, canon: Canonicalizer)
    requires |packet| >= 12 && RecordCount(packet) == 1 && Word16(packet, 6) == 1 && |packet| == start + 12 + |address| && |ttl| == 4
    requires queryType != TYPE_CNAME && |address| == ExpectedLength(queryType) && Decode(packet, start, canon) == Ok((hostname, start + 2))
    requires At(packet, start + 2, RecordFields(queryType, 1, ttl, |address|)) && At(packet, start + 12, address)
    ensures ParseBody(packet, hostname, queryType, canon, start) == Ok(Parsed([address], []))
  {
    RecordRoundTrip(packet, start, start + 2, hostname, queryType, 1, ttl, address, canon);
    OneAnswer(ContextOf(packet, hostname, queryType, canon), start, address);
  }

  lemma Accepts(packet: seq<Byte>, hostname: string, queryType: Word, id: Word, canon: Canonicalizer, at: nat)
    requires 12 <= |packet| <= 4096 && Word16(packet, 0) == id && HeaderFits(packet) && Decode(packet, 12, canon) == Ok((hostname, at))
    requires at + 4 <= |packet| && Word16(packet, at) == queryType && Word16(packet, at + 2) == 1
    ensures Parse(packet, hostname, queryType, id, canon) == ParseBody(packet, hostname, queryType, canon, at + 4)
  {
  }

  /** A well-formed answer is accepted: the parser returns the address that was written, of either family. */
  lemma ResponseRoundTrip(hostname: string, queryType: Word, id: Word, ttl: seq<Byte>, address: seq<Byte>, canon: Canonicalizer)
    requires AllEncodable(SplitDots(hostname)) && canon(hostname) == Some(hostname) && |ttl| == 4
    requires (queryType == 1 && |address| == 4) || (queryType == 28 && |address| == 16)
    requires |AddressResponse(hostname, queryType, id, ttl, address)| <= 4096
    ensures Parse(AddressResponse(hostname, queryType, id, ttl, address), hostname, queryType, id, canon) == Ok(Parsed([address], []))
  {
    var packet := AddressResponse(hostname, queryType, id, ttl, address);
    ResponseLayout(hostname, queryType, id, ttl, address);
    ReadsBack(packet, hostname, queryType, id, ttl, address, canon);
  }

  lemma ReadsBack(packet: seq<Byte>, hostname: string, queryType: Word, id: Word, ttl: seq<Byte>, address: seq<Byte>, canon: Canonicalizer)
    requires AllEncodable(SplitDots(hostname)) && canon(hostname) == Some(hostname) && |ttl| == 4 && |address| < 65536 && |packet| <= 4096
    requires LaidOut(packet, hostname, queryType, id, ttl, address) && queryType != TYPE_CNAME && |address| == ExpectedLength(queryType)
    ensures Parse(packet, hostname, queryType, id, canon) == Ok(Parsed([address], []))
  {
    var at := 12 + |Encoded(SplitDots(hostname))|;
    var body := ParseBody(packet, hostname, queryType, canon, at + 4);
    assert body == Ok(Parsed([address], [])) by { BodyOfResponse(packet, hostname, queryType, id, ttl, address, canon, at); }
    assert Parse(packet, hostname, queryType, id, canon) == body by { HeadAndQuestion(packet, hostname, queryType, id, canon, at); }
  }

  ghost predicate LaidOut(packet: seq<Byte>, hostname: string, queryType: Word, id: Word, ttl: seq<Byte>, address: seq<Byte>)
    requires AllEncodable(SplitDots(hostname)) && |ttl| == 4 && |address| < 65536
  {
    var question := Question(hostname, queryType);
    && At(packet, 0, ResponseHead(id, 1)) && At(packet, 12, question)
    && At(packet, 12 + |question|, AddressRecord(queryType, ttl, address)) && |packet| == 12 + |question| + 12 + |address|
  }

  lemma HeadAndQuestion(packet: seq<Byte>, hostname: string, queryType: Word, id: Word, canon: Canonicalizer, at: nat)
    requires AllEncodable(SplitDots(hostname)) && canon(hostname) == Some(hostname) && |packet| <= 4096
    requires At(packet, 0, ResponseHead(id, 1)) && At(packet, 12, Question(hostname, queryType)) && at == 12 + |Encoded(SplitDots(hostname))|
    ensures Parse(packet, hostname, queryType, id, canon) == ParseBody(packet, hostname, queryType, canon, at + 4)
  {
    assert Word16(packet, 0) == id && HeaderFits(packet) by { HeadReads(packet, id, 1); }
    assert Decode(packet, 12, canon) == Ok((hostname, at)) && at + 4 <= |packet| && Word16(packet, at) == queryType && Word16(packet, at + 2) == 1 by {
      QuestionReads(packet, hostname, queryType, canon);
    }
    Accepts(packet, hostname, queryType, id, canon, at);
  }

  lemma BodyOfResponse(packet: seq<Byte>, hostname: string, queryType: Word, id: Word, ttl: seq<Byte>, address: seq<Byte>, canon: Canonicalizer, at: nat)
    requires AllEncodable(SplitDots(hostname)) && canon(hostname) == Some(hostname) && |ttl| == 4 && |address| < 65536
    requires LaidOut(packet, hostname, queryType, id, ttl, address) && queryType != TYPE_CNAME && |address| == ExpectedLength(queryType)
    requires at == 12 + |Encoded(SplitDots(hostname))|
    ensures ParseBody(packet, hostname, queryType, canon, at + 4) == Ok(Parsed([address], []))
  {
    assert RecordCount(packet) == 1 && Word16(packet, 6) == 1 by { HeadReads(packet, id, 1); }
    assert ReadRun(packet, 12) == Some(Run(SplitDots(hostname), at, None)) by { QuestionReads(packet, hostname, queryType, canon); }
    AnswerReads(packet, at, hostname, queryType, ttl, address, canon);
  }

  lemma AnswerReads(packet: seq<Byte>, at: nat, hostname: string, queryType: Word, ttl: seq<Byte>, address: seq<Byte>, canon: Canonicalizer)
    requires 12 < |packet| == at + 16 + |address| && RecordCount(packet) == 1 && Word16(packet, 6) == 1 && |ttl| == 4
    requires queryType != TYPE_CNAME && |address| == ExpectedLength(queryType) && canon(hostname) == Some(hostname)
    requires ReadRun(packet, 12) == Some(Run(SplitDots(hostname), at, None)) && At(packet, at + 4, AddressRecord(queryType, ttl, address))
    ensures ParseBody(packet, hostname, queryType, canon, at + 4) == Ok(Parsed([address], []))
  {
    AnswerLayout(packet, at + 4, queryType, ttl, address);
    PointedOwner(packet, at + 4, hostname, at, canon);
    BodyReads(packet, at + 4, hostname, queryType, ttl, address, canon);
  }
}
