/** Queries as they are written to the wire, and that decoding one gives the hostname back. */
module DnsQuery {
  import opened Common
  import opened DnsName

  type Word = w: int | 0 <= w < 65536

  const RECURSION_DESIRED: Word := 0x0100
  const IN: Word := 1

  function WordBytes(w: Word): (b: seq<Byte>)
    ensures |b| == 2
  {
    [w / 256, w % 256]
  }

  function Word16(packet: seq<Byte>, offset: nat): (w: Word)
    requires offset + 2 <= |packet|
  {
    packet[offset] as int * 256 + packet[offset + 1] as int
  }

  predicate Encodable(word: string) { 0 < |word| <= 63 && AsciiText(word) }

  /** Each label after its length, then the empty label. */
  function Encoded(labels: seq<string>): seq<Byte>
    requires AllEncodable(labels)
  {
    if labels == [] then [0] else [|labels[0]| as Byte] + Raw(labels[0]) + Encoded(labels[1..])
  }

  function Header(id: Word): (h: seq<Byte>)
    ensures |h| == 12
  {
    WordBytes(id) + WordBytes(RECURSION_DESIRED) + WordBytes(1) + WordBytes(0) + WordBytes(0) + WordBytes(0)
  }

  predicate AllEncodable(labels: seq<string>) { forall i :: 0 <= i < |labels| ==> Encodable(labels[i]) }

  method BuildQuery(hostname: string, queryType: Word, id: Word) returns (r: Result<seq<Byte>, Code>)
    ensures r.Ok? <==> AllEncodable(SplitDots(hostname))
    ensures r.Ok? ==> r.value == Query(hostname, queryType, id)
  {
    var labels := SplitDots(hostname);
    var encoded: seq<Byte> := [];
    for i := 0 to |labels|
      invariant AllEncodable(labels[..i])
      invariant AllEncodable(labels) ==> Encoded(labels) == encoded + Encoded(labels[i..])
    {
      if !AsciiText(labels[i]) || labels[i] == "" || |labels[i]| > 63 { return Err(NameInvalid); }
      encoded := encoded + [|labels[i]| as Byte];
      encoded := encoded + Raw(labels[i]);
      assert labels[i..][1..] == labels[i + 1..];
    }
    assert labels[..|labels|] == labels && labels[|labels|..] == [];
    encoded := encoded + [0];
    return Ok(Header(id) + encoded + (WordBytes(queryType) + WordBytes(IN)));
  }

  // ---- Round trip ----

  lemma {:induction false} JoinSplit(s: string)
    ensures JoinDots(SplitDots(s)) == s
  {
    if s != "" {
      JoinSplit(s[1..]);
      var rest := SplitDots(s[1..]);
      if s[0] == '.' {
        assert SplitDots(s)[1..] == rest;
        assert "" + "." + s[1..] == s;
      } else {
        assert SplitDots(s)[1..] == rest[1..];
        assert [s[0]] + s[1..] == s;
        if |rest| > 1 { assert [s[0]] + rest[0] + "." + JoinDots(rest[1..]) == [s[0]] + (rest[0] + "." + JoinDots(rest[1..])); }
      }
    }
  }

  /** Wherever encoded labels stand in a packet, reading them yields the labels and the offset after them. */
  lemma {:induction false} ReadEncoded(packet: seq<Byte>, offset: nat, labels: seq<string>)
    requires AllEncodable(labels) && offset + |Encoded(labels)| <= |packet|
    requires packet[offset..offset + |Encoded(labels)|] == Encoded(labels)
    ensures ReadRun(packet, offset) == Some(Run(labels, offset + |Encoded(labels)|, None))
    decreases |labels|
  {
    if labels == [] {
      ReadTerminator(packet, offset);
    } else {
      var word, rest := labels[0], labels[1..];
      EncodedSlices(packet, offset, labels);
      ReadLabel(packet, offset, word);
      ReadEncoded(packet, offset + 1 + |word|, rest);
      assert [word] + rest == labels;
    }
  }

  lemma ReadTerminator(packet: seq<Byte>, offset: nat)
    requires offset + 1 <= |packet| && packet[offset..offset + 1] == [0]
    ensures ReadRun(packet, offset) == Some(Run([], offset + 1, None))
  {
    assert packet[offset] == packet[offset..offset + 1][0];
  }

  lemma EncodedSlices(packet: seq<Byte>, offset: nat, labels: seq<string>)
    requires AllEncodable(labels) && labels != [] && offset + |Encoded(labels)| <= |packet|
    requires packet[offset..offset + |Encoded(labels)|] == Encoded(labels)
    ensures var word, rest := labels[0], labels[1..];
      && Encodable(word) && |Encoded(labels)| == 1 + |word| + |Encoded(rest)|
      && packet[offset..offset + 1 + |word|] == [|word| as Byte] + Raw(word)
      && packet[offset + 1 + |word|..offset + 1 + |word| + |Encoded(rest)|] == Encoded(rest)
  {
    var word, rest := labels[0], labels[1..];
    assert Encodable(word);
    Slices(packet, offset, [|word| as Byte] + Raw(word), Encoded(rest));
  }

  /** An encoded label is read first; what follows it is read as if it stood alone. */
  lemma ReadLabel(packet: seq<Byte>, offset: nat, word: string)
    requires Encodable(word) && offset + 1 + |word| <= |packet| && packet[offset..offset + 1 + |word|] == [|word| as Byte] + Raw(word)
    ensures var rest := ReadRun(packet, offset + 1 + |word|);
      ReadRun(packet, offset) == if rest.None? then None else Some(rest.value.(labels := [word] + rest.value.labels))
  {
    Slices(packet, offset, [|word| as Byte], Raw(word));
    assert packet[offset] == packet[offset..offset + 1][0];
    assert Text(packet[offset + 1..offset + 1 + |word|]) == word;
  }

  lemma Slices(packet: seq<Byte>, offset: nat, a: seq<Byte>, b: seq<Byte>)
    requires offset + |a + b| <= |packet| && packet[offset..offset + |a + b|] == a + b
    ensures packet[offset..offset + |a|] == a && packet[offset + |a|..offset + |a| + |b|] == b
  {
    assert packet[offset..offset + |a + b|][..|a|] == packet[offset..offset + |a|];
    assert packet[offset..offset + |a + b|][|a|..] == packet[offset + |a|..offset + |a| + |b|];
  }

  function Query(hostname: string, queryType: Word, id: Word): seq<Byte>
    requires AllEncodable(SplitDots(hostname))
  {
    Header(id) + Encoded(SplitDots(hostname)) + (WordBytes(queryType) + WordBytes(IN))
  }

  lemma WordReads(packet: seq<Byte>, offset: nat, w: Word)
    requires offset + 2 <= |packet| && packet[offset..offset + 2] == WordBytes(w)
    ensures Word16(packet, offset) == w
  {
    assert packet[offset] == packet[offset..offset + 2][0] && packet[offset + 1] == packet[offset..offset + 2][1];
  }

  lemma QueryLayout(hostname: string, queryType: Word, id: Word)
    requires AllEncodable(SplitDots(hostname))
    ensures var query, encoded := Query(hostname, queryType, id), Encoded(SplitDots(hostname));
      && |query| == 12 + |encoded| + 4 && query[12..12 + |encoded|] == encoded && query[..12] == Header(id)
      && query[|query| - 4..|query| - 2] == WordBytes(queryType) && query[|query| - 2..|query|] == WordBytes(IN)
  {
  }

  lemma HostDecodes(packet: seq<Byte>, offset: nat, hostname: string, end: nat, canon: Canonicalizer)
    requires canon(hostname) == Some(hostname) && NameLabels(packet, offset, {}, 0) == Some(SplitDots(hostname))
    requires ReadRun(packet, offset).Some? && ReadRun(packet, offset).value.end == end
    ensures Decode(packet, offset, canon) == Ok((hostname, end))
  {
    JoinSplit(hostname);
  }

  lemma NameReads(packet: seq<Byte>, hostname: string, canon: Canonicalizer)
    requires AllEncodable(SplitDots(hostname)) && canon(hostname) == Some(hostname)
    requires var encoded := Encoded(SplitDots(hostname)); 12 + |encoded| <= |packet| && packet[12..12 + |encoded|] == encoded
    ensures Decode(packet, 12, canon) == Ok((hostname, 12 + |Encoded(SplitDots(hostname))|))
  {
    ReadEncoded(packet, 12, SplitDots(hostname));
    HostDecodes(packet, 12, hostname, 12 + |Encoded(SplitDots(hostname))|, canon);
  }

  /** The header asks for recursion and announces one question and nothing else. */
  lemma HeaderWords(query: seq<Byte>, id: Word)
    requires |query| >= 12 && query[..12] == Header(id)
    ensures Word16(query, 0) == id && Word16(query, 2) == 0x0100 && Word16(query, 4) == 1
    ensures Word16(query, 6) == 0 && Word16(query, 8) == 0 && Word16(query, 10) == 0
  {
    assert forall i :: 0 <= i < 12 ==> query[i] == query[..12][i];
  }

  /** Decoding a query gives back the canonical hostname and the offset of the query type. */
  lemma QueryRoundTrip(hostname: string, queryType: Word, id: Word, canon: Canonicalizer)
    requires AllEncodable(SplitDots(hostname)) && canon(hostname) == Some(hostname)
    ensures var query := Query(hostname, queryType, id);
      && |query| >= 16 && Decode(query, 12, canon) == Ok((hostname, |query| - 4))
      && Word16(query, |query| - 4) == queryType && Word16(query, |query| - 2) == 1 && Word16(query, 0) == id
      && Word16(query, 2) == 0x0100 && Word16(query, 4) == 1 && Word16(query, 6) == 0 && Word16(query, 8) == 0 && Word16(query, 10) == 0
  {
    var query := Query(hostname, queryType, id);
    QueryLayout(hostname, queryType, id);
    NameReads(query, hostname, canon);
    WordReads(query, |query| - 4, queryType);
    WordReads(query, |query| - 2, IN);
    HeaderWords(query, id);
  }
}
