/** What is known of every accepted DNS response. */
module DnsTheorems {
  import opened Common
  import opened DnsName
  import opened DnsQuery
  import opened DnsResponse
  import opened DnsRoundTrip

  // ---- Records tile the packet ----

  /** The records lie end to end from one offset to another. */
  ghost predicate Tiles(packet: seq<Byte>, views: seq<View>, from: nat, to: nat, canon: Canonicalizer) {
    if views == [] then from == to
    else
      var last := |views| - 1;
      var at := if last == 0 then from else views[last - 1].dataEnd;
      Tiles(packet, views[..last], from, at, canon) && ReadRecord(packet, at, canon) == Some(views[last]) && views[last].dataEnd == to
  }

  /** Type 5 of section 3.2.2 of RFC 1035. */
  ghost predicate IsCname(c: Context, index: nat, v: View) { IsAnswer(c, index, v) && v.kind == 5 }

  ghost predicate IsAddress(c: Context, index: nat, v: View) { IsAnswer(c, index, v) && v.kind != TYPE_CNAME && v.kind == c.queryType }

  ghost function TargetOf(c: Context, v: View): string {
    var name := Decode(c.packet, v.dataStart, c.canon);
    if name.Ok? then name.value.0 else ""
  }

  /** Owner and target of every CNAME among the answers. */
  ghost function Edges(c: Context, views: seq<View>): set<(string, string)> {
    if views == [] then {}
    else
      var last := |views| - 1;
      Edges(c, views[..last]) + if IsCname(c, last, views[last]) then {(views[last].owner, TargetOf(c, views[last]))} else {}
  }

  ghost function Targets(c: Context, views: seq<View>): seq<string> {
    if views == [] then []
    else
      var last := |views| - 1;
      Targets(c, views[..last]) + if IsCname(c, last, views[last]) then [TargetOf(c, views[last])] else []
  }

  ghost function AddressData(c: Context, views: seq<View>): seq<seq<Byte>> {
    if views == [] then []
    else
      var last := |views| - 1;
      var v := views[last];
      AddressData(c, views[..last])
        + if IsAddress(c, last, v) && v.dataStart <= v.dataEnd <= |c.packet| then [c.packet[v.dataStart..v.dataEnd]] else []
  }

  // ---- Reachability through accepted CNAME records ----

  ghost predicate IsPath(edges: set<(string, string)>, path: seq<string>, from: string, to: string) {
    && path != [] && path[0] == from && path[|path| - 1] == to
    && forall i :: 0 <= i < |path| - 1 ==> (path[i], path[i + 1]) in edges
  }

  ghost predicate Reaches(edges: set<(string, string)>, from: string, to: string) {
    exists path :: IsPath(edges, path, from, to)
  }

  lemma ReachesItself(edges: set<(string, string)>, name: string)
    ensures Reaches(edges, name, name)
  {
    assert IsPath(edges, [name], name, name);
  }

  lemma ReachesMore(edges: set<(string, string)>, more: set<(string, string)>, from: string, to: string)
    requires Reaches(edges, from, to) && edges <= more
    ensures Reaches(more, from, to)
  {
    var path :| IsPath(edges, path, from, to);
    assert IsPath(more, path, from, to);
  }

  lemma ReachesOn(edges: set<(string, string)>, from: string, via: string, to: string)
    requires Reaches(edges, from, via) && (via, to) in edges
    ensures Reaches(edges, from, to)
  {
    var path :| IsPath(edges, path, from, via);
    assert IsPath(edges, path + [to], from, to);
  }

  /** The owner of every answer that was used can be reached from the queried name. */
  ghost predicate OwnerReached(c: Context, views: seq<View>, index: nat)
    requires index < |views|
  {
    IsCname(c, index, views[index]) || IsAddress(c, index, views[index]) ==> Reaches(Edges(c, views), c.hostname, views[index].owner)
  }

  ghost predicate AllReached(c: Context, views: seq<View>, names: seq<string>) {
    forall i :: 0 <= i < |names| ==> Reaches(Edges(c, views), c.hostname, names[i])
  }

  ghost predicate OwnersReached(c: Context, views: seq<View>) {
    forall i :: 0 <= i < |views| ==> OwnerReached(c, views, i)
  }

  /** Where the scan stands after these records. */
  ghost predicate Scanned(c: Context, views: seq<View>, from: nat, s: Scan) {
    && Tiles(c.packet, views, from, s.offset, c.canon)
    && s.cnames == Targets(c, views) && s.addresses == AddressData(c, views)
    && NoRepeats(s.cnames) && c.hostname !in s.cnames
    && AllReached(c, views, s.cnames) && OwnersReached(c, views)
    && forall i :: 0 <= i < |s.addresses| ==> |s.addresses[i]| == if c.queryType == 1 then 4 else 16
  }

  lemma EdgesGrow(c: Context, views: seq<View>, v: View)
    ensures Edges(c, views) <= Edges(c, views + [v])
    ensures IsCname(c, |views|, v) ==> (v.owner, TargetOf(c, v)) in Edges(c, views + [v])
  {
    assert (views + [v])[..|views|] == views;
  }

  lemma AllowedReached(c: Context, views: seq<View>, from: nat, s: Scan, name: string, v: View)
    requires Scanned(c, views, from, s) && Allowed(c, s, name)
    ensures Reaches(Edges(c, views + [v]), c.hostname, name)
  {
    EdgesGrow(c, views, v);
    if name == c.hostname {
      ReachesItself(Edges(c, views + [v]), name);
    } else {
      var i :| 0 <= i < |s.cnames| && s.cnames[i] == name;
      ReachesMore(Edges(c, views), Edges(c, views + [v]), c.hostname, name);
    }
  }

  lemma RecordBounds(packet: seq<Byte>, offset: nat, canon: Canonicalizer)
    ensures var v := ReadRecord(packet, offset, canon);
      v.Some? ==> offset + 10 < v.value.dataStart <= v.value.dataEnd <= |packet|
  {
    DecodeResumes(packet, offset, canon);
  }

  lemma TilesOn(packet: seq<Byte>, views: seq<View>, from: nat, to: nat, v: View, canon: Canonicalizer)
    requires Tiles(packet, views, from, to, canon) && ReadRecord(packet, to, canon) == Some(v)
    ensures Tiles(packet, views + [v], from, v.dataEnd, canon)
  {
    assert (views + [v])[..|views|] == views;
  }

  lemma OwnersStay(c: Context, views: seq<View>, v: View)
    requires OwnersReached(c, views)
    requires IsCname(c, |views|, v) || IsAddress(c, |views|, v) ==> Reaches(Edges(c, views + [v]), c.hostname, v.owner)
    ensures OwnersReached(c, views + [v])
  {
    EdgesGrow(c, views, v);
    forall i | 0 <= i < |views + [v]| ensures OwnerReached(c, views + [v], i) {
      if i < |views| {
        assert OwnerReached(c, views, i);
        if IsCname(c, i, views[i]) || IsAddress(c, i, views[i]) {
          ReachesMore(Edges(c, views), Edges(c, views + [v]), c.hostname, views[i].owner);
        }
      }
    }
  }

  lemma NamesStay(c: Context, views: seq<View>, v: View, names: seq<string>)
    requires AllReached(c, views, names)
    ensures AllReached(c, views + [v], names)
  {
    EdgesGrow(c, views, v);
    forall i | 0 <= i < |names| ensures Reaches(Edges(c, views + [v]), c.hostname, names[i]) {
      ReachesMore(Edges(c, views), Edges(c, views + [v]), c.hostname, names[i]);
    }
  }

  lemma CnameScanned(c: Context, views: seq<View>, from: nat, s: Scan, s': Scan, v: View)
    requires Scanned(c, views, from, s) && ReadRecord(c.packet, s.offset, c.canon) == Some(v)
    requires IsCname(c, |views|, v) && TakeCname(c, s, v) == Some(s')
    ensures Scanned(c, views + [v], from, s')
  {
    var all, target := views + [v], TargetOf(c, v);
    assert all[..|views|] == views;
    TilesOn(c.packet, views, from, s.offset, v, c.canon);
    AllowedReached(c, views, from, s, v.owner, v);
    EdgesGrow(c, views, v);
    ReachesOn(Edges(c, all), c.hostname, v.owner, target);
    OwnersStay(c, views, v);
    NamesStay(c, views, v, s.cnames);
    assert s'.cnames == s.cnames + [target];
  }

  lemma AddressScanned(c: Context, views: seq<View>, from: nat, s: Scan, s': Scan, v: View)
    requires Scanned(c, views, from, s) && ReadRecord(c.packet, s.offset, c.canon) == Some(v) && v.dataStart <= v.dataEnd <= |c.packet|
    requires IsAddress(c, |views|, v) && TakeAddress(c, s, v) == Some(s')
    ensures Scanned(c, views + [v], from, s')
  {
    assert (views + [v])[..|views|] == views;
    TilesOn(c.packet, views, from, s.offset, v, c.canon);
    AllowedReached(c, views, from, s, v.owner, v);
    OwnersStay(c, views, v);
    NamesStay(c, views, v, s.cnames);
  }

  lemma OtherScanned(c: Context, views: seq<View>, from: nat, s: Scan, v: View)
    requires Scanned(c, views, from, s) && ReadRecord(c.packet, s.offset, c.canon) == Some(v)
    requires !IsCname(c, |views|, v) && !IsAddress(c, |views|, v)
    ensures Scanned(c, views + [v], from, s.(offset := v.dataEnd))
  {
    assert (views + [v])[..|views|] == views;
    TilesOn(c.packet, views, from, s.offset, v, c.canon);
    OwnersStay(c, views, v);
    NamesStay(c, views, v, s.cnames);
    assert s.cnames + [] == s.cnames && s.addresses + [] == s.addresses;
  }

  lemma RecordScanned(c: Context, views: seq<View>, from: nat, s: Scan, s': Scan) returns (v: View)
    requires Scanned(c, views, from, s) && TakeRecord(c, |views|, s) == Some(s')
    ensures Scanned(c, views + [v], from, s')
  {
    v := ReadRecord(c.packet, s.offset, c.canon).value;
    RecordBounds(c.packet, s.offset, c.canon);
    if IsCname(c, |views|, v) { CnameScanned(c, views, from, s, s', v); }
    else if IsAddress(c, |views|, v) { AddressScanned(c, views, from, s, s', v); }
    else { OtherScanned(c, views, from, s, v); }
  }

  lemma TakeOne(c: Context, index: nat, total: nat, s: Scan, s': Scan) returns (next: Scan)
    requires index < total && TakeRecords(c, index, total, s) == Some(s')
    ensures TakeRecord(c, index, s) == Some(next) && TakeRecords(c, index + 1, total, next) == Some(s')
  {
    next := TakeRecord(c, index, s).value;
  }

  lemma TakeNone(c: Context, total: nat, s: Scan)
    ensures TakeRecords(c, total, total, s) == Some(s)
  {
  }

  ghost predicate Moves(c: Context, index: nat, s: Scan, s': Scan) { TakeRecord(c, index, s) == Some(s') }

  /** The states the scan goes through, from record `index` on. */
  ghost predicate IsTrace(c: Context, index: nat, trace: seq<Scan>) {
    trace != [] && forall i, j :: 0 <= i < |trace| - 1 && j == i + 1 ==> Moves(c, index + i, trace[i], trace[j])
  }

  lemma {:induction false} TraceOf(c: Context, index: nat, total: nat, s: Scan, s': Scan) returns (trace: seq<Scan>)
    requires index <= total && TakeRecords(c, index, total, s) == Some(s')
    ensures IsTrace(c, index, trace) && |trace| == total - index + 1 && trace[0] == s && trace[|trace| - 1] == s'
    decreases total - index
  {
    if index == total {
      TakeNone(c, total, s);
      trace := [s];
    } else {
      var next := TakeOne(c, index, total, s, s');
      var rest := TraceOf(c, index + 1, total, next, s');
      trace := [s] + rest;
      TraceOn(c, index, s, rest);
    }
  }

  lemma TraceOn(c: Context, index: nat, s: Scan, rest: seq<Scan>)
    requires IsTrace(c, index + 1, rest) && Moves(c, index, s, rest[0])
    ensures IsTrace(c, index, [s] + rest)
  {
    var trace := [s] + rest;
    forall i, j | 0 <= i < |trace| - 1 && j == i + 1 ensures Moves(c, index + i, trace[i], trace[j]) {
      if i > 0 { assert Moves(c, index + 1 + (i - 1), rest[i - 1], rest[i]); }
    }
  }

  lemma TraceInit(c: Context, trace: seq<Scan>)
    requires IsTrace(c, 0, trace) && |trace| > 1
    ensures IsTrace(c, 0, trace[..|trace| - 1]) && Moves(c, |trace| - 2, trace[|trace| - 2], trace[|trace| - 1])
  {
    var init := trace[..|trace| - 1];
    forall i, j | 0 <= i < |init| - 1 && j == i + 1 ensures Moves(c, 0 + i, init[i], init[j]) {
      assert Moves(c, 0 + i, trace[i], trace[j]);
    }
    assert Moves(c, 0 + (|trace| - 2), trace[|trace| - 2], trace[|trace| - 1]);
  }

  lemma {:induction false} RecordsScanned(c: Context, from: nat, trace: seq<Scan>) returns (views: seq<View>)
    requires IsTrace(c, 0, trace) && trace[0] == Scan(from, [], [])
    ensures |views| == |trace| - 1 && Scanned(c, views, from, trace[|trace| - 1])
    decreases |trace|
  {
    var n := |trace| - 1;
    if n == 0 {
      views := [];
    } else {
      TraceInit(c, trace);
      var head := RecordsScanned(c, from, trace[..n]);
      var v := RecordScanned(c, head, from, trace[n - 1], trace[n]);
      views := head + [v];
    }
  }

  /** The question of an accepted packet ends here. */
  ghost function QuestionEnd(packet: seq<Byte>, canon: Canonicalizer): nat
    requires Decode(packet, 12, canon).Ok?
  {
    Decode(packet, 12, canon).value.1 + 4
  }

  /**
   * In an accepted packet the question repeats the query and its records tile the rest exactly; the
   * returned names and addresses are those of the answers, every name and every owner is reachable
   * from the hostname through accepted CNAME records, and no name repeats or is the hostname itself.
   */
  lemma AcceptedResponse(packet: seq<Byte>, hostname: string, queryType: Word, id: Word, canon: Canonicalizer) returns (views: seq<View>)
    requires Parse(packet, hostname, queryType, id, canon).Ok?
    ensures 12 <= |packet| <= MAX_MESSAGE && Word16(packet, 0) == id && |views| == RecordCount(packet) <= MAX_RECORDS
    ensures Decode(packet, 12, canon).Ok? && Decode(packet, 12, canon).value.0 == hostname
    ensures 12 < QuestionEnd(packet, canon) <= |packet| && Tiles(packet, views, QuestionEnd(packet, canon), |packet|, canon)
    ensures QuestionEnd(packet, canon) >= 16 && Word16(packet, QuestionEnd(packet, canon) - 4) == queryType && Word16(packet, QuestionEnd(packet, canon) - 2) == 1
    ensures ResponseHeader(packet)
    ensures forall i :: 0 <= i < |Parse(packet, hostname, queryType, id, canon).value.addresses| ==>
      |Parse(packet, hostname, queryType, id, canon).value.addresses[i]| == if queryType == 1 then 4 else 16
    ensures var c, parsed := ContextOf(packet, hostname, queryType, canon), Parse(packet, hostname, queryType, id, canon).value;
      && parsed.cnames == Targets(c, views) && parsed.addresses == AddressData(c, views)
      && NoRepeats(parsed.cnames) && hostname !in parsed.cnames && NoRepeats(parsed.addresses)
      && AllReached(c, views, parsed.cnames) && OwnersReached(c, views)
  {
    var s := AcceptedParts(packet, hostname, queryType, id, canon);
    HeaderMeaning(packet);
    var c := ContextOf(packet, hostname, queryType, canon);
    var from := QuestionEnd(packet, canon);
    var trace := TraceOf(c, 0, RecordCount(packet), Scan(from, [], []), s);
    views := RecordsScanned(c, from, trace);
  }

  lemma AcceptedParts(packet: seq<Byte>, hostname: string, queryType: Word, id: Word, canon: Canonicalizer) returns (s: Scan)
    requires Parse(packet, hostname, queryType, id, canon).Ok?
    ensures 12 <= |packet| <= MAX_MESSAGE && Word16(packet, 0) == id && RecordCount(packet) <= MAX_RECORDS
    ensures Decode(packet, 12, canon).Ok? && Decode(packet, 12, canon).value.0 == hostname && 12 < QuestionEnd(packet, canon) <= |packet|
    ensures QuestionEnd(packet, canon) >= 16 && Word16(packet, QuestionEnd(packet, canon) - 4) == queryType && Word16(packet, QuestionEnd(packet, canon) - 2) == 1
    ensures HeaderFits(packet)
    ensures TakeRecords(ContextOf(packet, hostname, queryType, canon), 0, RecordCount(packet), Scan(QuestionEnd(packet, canon), [], [])) == Some(s)
    ensures s.offset == |packet| && NoRepeats(s.addresses)
    ensures Parse(packet, hostname, queryType, id, canon).value == Parsed(s.addresses, s.cnames)
  {
    DecodeResumes(packet, 12, canon);
    s := TakeRecords(ContextOf(packet, hostname, queryType, canon), 0, RecordCount(packet), Scan(QuestionEnd(packet, canon), [], [])).value;
  }
}
