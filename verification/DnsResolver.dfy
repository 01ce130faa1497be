/** Resolution of a hostname: one query per address family, whose CNAME records have to agree. */
module DnsResolver {
  import opened Common
  import opened DnsName
  import opened DnsQuery
  import opened DnsResponse
  import opened DnsTheorems

  /** `draw(n)` is the n-th random identifier; `exchange(n, query)` the n-th reply, if the transport succeeds. */
  datatype World = World(draw: nat -> int, exchange: (nat, seq<Byte>) -> Option<seq<Byte>>, canon: Canonicalizer)

  datatype Failure = Dns(code: Code) | TransportFailed

  const ATTEMPTS: nat := 4

  /** The first usable identifier among the next draws, and how many were drawn. */
  function NextId(w: World, used: set<int>, drawn: nat, attempts: nat): Option<(Word, nat)>
    decreases attempts
  {
    if attempts == 0 then None
    else
      var value := w.draw(drawn);
      if 0 <= value <= 65535 && value !in used then Some((value, drawn + 1))
      else NextId(w, used, drawn + 1, attempts - 1)
  }

  method NextTransactionId(w: World, used: set<int>, drawn: nat) returns (r: Option<(Word, nat)>)
    ensures r == NextId(w, used, drawn, ATTEMPTS)
    ensures r.Some? ==> r.value.0 !in used
  {
    for attempt := 0 to ATTEMPTS
      invariant NextId(w, used, drawn, ATTEMPTS) == NextId(w, used, drawn + attempt, ATTEMPTS - attempt)
    {
      var value := w.draw(drawn + attempt);
      if 0 <= value <= 65535 && value !in used { return Some((value, drawn + attempt + 1)); }
    }
    return None;
  }

  /** The reply to the query of one family. */
  function Answer(w: World, hostname: string, step: nat, queryType: Word, id: Word): Result<Parsed, Failure> {
    if !AllEncodable(SplitDots(hostname)) then Err(Dns(NameInvalid))
    else
      match w.exchange(step, Query(hostname, queryType, id))
      case None => Err(TransportFailed)
      case Some(packet) =>
        match Parse(packet, hostname, queryType, id, w.canon)
        case Ok(parsed) => Ok(parsed)
        case Err(code) => Err(Dns(code))
  }

  method Ask(w: World, hostname: string, step: nat, queryType: Word, id: Word) returns (r: Result<Parsed, Failure>)
    ensures r == Answer(w, hostname, step, queryType, id)
  {
    var query := BuildQuery(hostname, queryType, id);
    if query.Err? { return Err(Dns(NameInvalid)); }
    var packet := w.exchange(step, query.value);
    if packet.None? { return Err(TransportFailed); }
    var parsed := ParseResponse(packet.value, hostname, queryType, id, w.canon);
    if parsed.Err? { return Err(Dns(parsed.error)); }
    return Ok(parsed.value);
  }

  /** Both families answered, under different identifiers, with the same CNAME records. */
  ghost predicate Agreed(w: World, hostname: string, idA: Word, idB: Word, r: Parsed) {
    var a, b := Answer(w, hostname, 0, TYPE_A, idA), Answer(w, hostname, 1, TYPE_AAAA, idB);
    && idA != idB && a.Ok? && b.Ok? && a.value.cnames == b.value.cnames == r.cnames
    && r.addresses == a.value.addresses + b.value.addresses
  }

  ghost predicate Drawn(w: World, idA: Word, idB: Word) {
    var a := NextId(w, {}, 0, ATTEMPTS);
    a.Some? && a.value.0 == idA && var b := NextId(w, {idA}, a.value.1, ATTEMPTS); b.Some? && b.value.0 == idB
  }

  method Resolve(w: World, hostname: string) returns (r: Result<Parsed, Failure>)
    ensures r.Ok? <==> exists name, idA, idB, p :: w.canon(hostname) == Some(name) && Drawn(w, idA, idB) && Agreed(w, name, idA, idB, p)
    ensures r.Ok? ==> exists idA, idB :: Drawn(w, idA, idB) && Agreed(w, w.canon(hostname).value, idA, idB, r.value)
  {
    var canonical := w.canon(hostname);
    if canonical.None? { return Err(Dns(NameInvalid)); }
    var types := [TYPE_A, TYPE_AAAA];
    var addresses: seq<seq<Byte>> := [];
    var chains: seq<seq<string>> := [];
    var used: set<int> := {};
    var drawn: nat := 0;
    ghost var ids: seq<Word> := [];
    for i := 0 to |types|
      invariant |ids| == |chains| == i
      invariant i == 0 ==> drawn == 0 && used == {} && addresses == []
      invariant i >= 1 ==> NextId(w, {}, 0, ATTEMPTS).Some? && NextId(w, {}, 0, ATTEMPTS).value.0 == ids[0]
      invariant i >= 1 ==> Answer(w, canonical.value, 0, TYPE_A, ids[0]).Ok?
      invariant i == 1 ==> used == {ids[0]} && drawn == NextId(w, {}, 0, ATTEMPTS).value.1
      invariant i == 1 ==> addresses == Answer(w, canonical.value, 0, TYPE_A, ids[0]).value.addresses
      invariant i >= 1 ==> chains[0] == Answer(w, canonical.value, 0, TYPE_A, ids[0]).value.cnames
      invariant i == 2 ==> Drawn(w, ids[0], ids[1]) && ids[0] != ids[1] && Answer(w, canonical.value, 1, TYPE_AAAA, ids[1]).Ok?
      invariant i == 2 ==> chains[1] == Answer(w, canonical.value, 1, TYPE_AAAA, ids[1]).value.cnames
      invariant i == 2 ==> addresses == Answer(w, canonical.value, 0, TYPE_A, ids[0]).value.addresses
                                        + Answer(w, canonical.value, 1, TYPE_AAAA, ids[1]).value.addresses
    {
      var id := NextTransactionId(w, used, drawn);
      if id.None? { return Err(Dns(TransactionInvalid)); }
      used, drawn := used + {id.value.0 as int}, id.value.1;
      var parsed := Ask(w, canonical.value, i, types[i], id.value.0);
      if parsed.Err? { return Err(parsed.error); }
      addresses := addresses + parsed.value.addresses;
      chains := chains + [parsed.value.cnames];
      ids := ids + [id.value.0];
    }
    if chains[0] != chains[1] { return Err(Dns(CnameMismatch)); }
    assert Agreed(w, canonical.value, ids[0], ids[1], Parsed(addresses, chains[0]));
    return Ok(Parsed(addresses, chains[0]));
  }

  /** The packet is tiled by records whose CNAMEs are exactly these names, all reachable from the hostname. */
  ghost predicate Witnesses(packet: seq<Byte>, hostname: string, queryType: Word, names: seq<string>, canon: Canonicalizer, views: seq<View>)
    requires |packet| >= 12 && Decode(packet, 12, canon).Ok?
  {
    var c := ContextOf(packet, hostname, queryType, canon);
    Tiles(packet, views, QuestionEnd(packet, canon), |packet|, canon) && Targets(c, views) == names && AllReached(c, views, names)
  }

  /** Both replies of a resolution establish the names it returns. */
  lemma ResolvedNamesReached(w: World, hostname: string, idA: Word, idB: Word, r: Parsed, a: seq<Byte>, b: seq<Byte>)
    requires Agreed(w, hostname, idA, idB, r) && AllEncodable(SplitDots(hostname))
    requires w.exchange(0, Query(hostname, TYPE_A, idA)) == Some(a) && w.exchange(1, Query(hostname, TYPE_AAAA, idB)) == Some(b)
    ensures NoRepeats(r.cnames) && hostname !in r.cnames
    ensures |a| >= 12 && Decode(a, 12, w.canon).Ok? && exists views :: Witnesses(a, hostname, TYPE_A, r.cnames, w.canon, views)
    ensures |b| >= 12 && Decode(b, 12, w.canon).Ok? && exists views :: Witnesses(b, hostname, TYPE_AAAA, r.cnames, w.canon, views)
  {
    var first := AcceptedResponse(a, hostname, TYPE_A, idA, w.canon);
    assert Witnesses(a, hostname, TYPE_A, r.cnames, w.canon, first);
    var second := AcceptedResponse(b, hostname, TYPE_AAAA, idB, w.canon);
    assert Witnesses(b, hostname, TYPE_AAAA, r.cnames, w.canon, second);
  }
}
