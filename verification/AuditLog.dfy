/** The hash-chained audit log: appending, verifying, and what its head hash fixes. */
module AuditLog {
  import opened Common

  datatype Content = Content(eventId: string, occurredAt: string, actorType: string, actorId: string, action: string,
                             subjectType: string, subjectId: string, data: string)

  datatype Event = Event(sequence: nat, content: Content, previousHash: Option<nat>, hash: nat)

  /** The hash of an event together with the hash before it. */
  type Hash = (Content, Option<nat>) -> nat

  ghost predicate Injective(h: Hash) {
    forall c, p, c', p' {:trigger h(c, p), h(c', p')} :: h(c, p) == h(c', p') ==> c == c' && p == p'
  }

  /** The event contract, checked when the log is read and not when it is written. */
  type Contract = Event -> bool

  function Head(rows: seq<Event>): Option<nat> { if rows == [] then None else Some(rows[|rows| - 1].hash) }

  predicate Linked(h: Hash, rows: seq<Event>, i: nat)
    requires i < |rows|
  {
    rows[i].sequence == i + 1 && rows[i].previousHash == Head(rows[..i]) && rows[i].hash == h(rows[i].content, rows[i].previousHash)
  }

  ghost predicate Chained(h: Hash, rows: seq<Event>) { forall i :: 0 <= i < |rows| ==> Linked(h, rows, i) }

  function NextEvent(h: Hash, rows: seq<Event>, c: Content): Event {
    Event(|rows| + 1, c, Head(rows), h(c, Head(rows)))
  }

  /** Event identifiers and hashes are unique columns. */
  predicate Unused(rows: seq<Event>, e: Event) {
    forall i :: 0 <= i < |rows| ==> rows[i].content.eventId != e.content.eventId && rows[i].hash != e.hash
  }

  datatype Verification = Valid(count: nat, head: Option<nat>) | EventInvalid(count: nat, failed: nat) | ChainInvalid(count: nat, failed: nat)

  class Log {
    var rows: seq<Event>

    constructor ()
      ensures rows == []
    {
      rows := [];
    }

    /** The insertion is refused when a unique column repeats; the caller's transaction is then rolled back. */
    method Append(h: Hash, c: Content) returns (appended: bool)
      modifies this
      ensures appended <==> Unused(old(rows), NextEvent(h, old(rows), c))
      ensures rows == if appended then old(rows) + [NextEvent(h, old(rows), c)] else old(rows)
    {
      var previous := None;
      if rows != [] { previous := Some(rows[|rows| - 1].hash); }
      var event := Event(|rows| + 1, c, previous, h(c, previous));
      if !Unused(rows, event) { return false; }
      rows := rows + [event];
      return true;
    }

    /** Walks the rows, comparing each with what the row before it requires. */
    method Verify(h: Hash, contract: Contract) returns (v: Verification)
      ensures Describes(h, contract, rows, v)
    {
      var previous: Option<nat>, previousSequence: nat := None, 0;
      for i := 0 to |rows|
        invariant previous == Head(rows[..i]) && previousSequence == i
        invariant forall j :: 0 <= j < i ==> Good(h, contract, rows, j)
      {
        if !contract(rows[i]) { assert FirstBad(h, contract, rows, i); return EventInvalid(|rows|, rows[i].sequence); }
        var expected := h(rows[i].content, rows[i].previousHash);
        if rows[i].sequence != previousSequence + 1 || rows[i].previousHash != previous || rows[i].hash != expected {
          assert FirstBad(h, contract, rows, i);
          return ChainInvalid(|rows|, rows[i].sequence);
        }
        previous, previousSequence := Some(rows[i].hash), rows[i].sequence;
        assert rows[..i + 1][i] == rows[i];
      }
      assert rows[..|rows|] == rows;
      return Valid(|rows|, previous);
    }
  }

  // ---- What verification says ----

  ghost predicate Good(h: Hash, contract: Contract, rows: seq<Event>, i: nat)
    requires i < |rows|
  {
    contract(rows[i]) && Linked(h, rows, i)
  }

  ghost predicate FirstBad(h: Hash, contract: Contract, rows: seq<Event>, i: nat) {
    i < |rows| && !Good(h, contract, rows, i) && forall j :: 0 <= j < i ==> Good(h, contract, rows, j)
  }

  /** The first row that breaks its contract or the chain is named; without one the log is valid. */
  ghost predicate Describes(h: Hash, contract: Contract, rows: seq<Event>, v: Verification) {
    match v
    case Valid(count, head) => count == |rows| && head == Head(rows) && AllGood(h, contract, rows)
    case EventInvalid(count, failed) =>
      count == |rows| && exists i: nat :: FirstBad(h, contract, rows, i) && failed == rows[i].sequence && !contract(rows[i])
    case ChainInvalid(count, failed) =>
      count == |rows| && exists i: nat :: FirstBad(h, contract, rows, i) && failed == rows[i].sequence && contract(rows[i])
  }

  // ---- Logs made by appending ----

  /** The log after appending these events one after the other; a refused one is skipped. */
  function AppendAll(h: Hash, rows: seq<Event>, contents: seq<Content>): seq<Event>
    decreases |contents|
  {
    if contents == [] then rows
    else
      var e := NextEvent(h, rows, contents[0]);
      AppendAll(h, if Unused(rows, e) then rows + [e] else rows, contents[1..])
  }

  lemma {:induction false} AppendsChain(h: Hash, rows: seq<Event>, contents: seq<Content>)
    requires Chained(h, rows)
    ensures Chained(h, AppendAll(h, rows, contents))
    decreases |contents|
  {
    if contents != [] {
      var e := NextEvent(h, rows, contents[0]);
      var next := if Unused(rows, e) then rows + [e] else rows;
      forall i | 0 <= i < |next| ensures Linked(h, next, i) {
        assert next[..i] == rows[..i];
        if i < |rows| { assert Linked(h, rows, i); } else { assert rows[..i] == rows; }
      }
      AppendsChain(h, next, contents[1..]);
    }
  }

  ghost predicate AllGood(h: Hash, contract: Contract, rows: seq<Event>) {
    forall i :: 0 <= i < |rows| ==> Good(h, contract, rows, i)
  }

  lemma GoodIff(h: Hash, contract: Contract, rows: seq<Event>)
    ensures AllGood(h, contract, rows) <==> Chained(h, rows) && forall i :: 0 <= i < |rows| ==> contract(rows[i])
  {
    if AllGood(h, contract, rows) {
      forall i | 0 <= i < |rows| ensures Linked(h, rows, i) && contract(rows[i]) { assert Good(h, contract, rows, i); }
    } else {
      var i :| 0 <= i < |rows| && !Good(h, contract, rows, i);
      assert Linked(h, rows, i) ==> !contract(rows[i]);
    }
  }

  /** A log made only by appending is accepted exactly when every event in it meets the contract. */
  lemma AppendedAcceptedIff(h: Hash, contract: Contract, contents: seq<Content>, v: Verification)
    requires Describes(h, contract, AppendAll(h, [], contents), v)
    ensures var rows := AppendAll(h, [], contents);
      v == Valid(|rows|, Head(rows)) <==> forall i :: 0 <= i < |rows| ==> contract(rows[i])
  {
    var rows := AppendAll(h, [], contents);
    AppendsChain(h, [], contents);
    GoodIff(h, contract, rows);
    if !v.Valid? {
      var i: nat :| FirstBad(h, contract, rows, i);
      assert Linked(h, rows, i);
    }
  }

  lemma ChainedInit(h: Hash, rows: seq<Event>, n: nat)
    requires Chained(h, rows) && n <= |rows|
    ensures Chained(h, rows[..n])
  {
    forall i | 0 <= i < n ensures Linked(h, rows[..n], i) {
      assert Linked(h, rows, i);
      assert rows[..n][..i] == rows[..i];
    }
  }

  /** Two chained logs with the same head are the same log. */
  lemma {:induction false} HeadFixesHistory(h: Hash, a: seq<Event>, b: seq<Event>)
    requires Injective(h) && Chained(h, a) && Chained(h, b) && Head(a) == Head(b)
    ensures a == b
    decreases |a|
  {
    if a != [] {
      var m, n := |a| - 1, |b| - 1;
      assert Linked(h, a, m) && Linked(h, b, n);
      assert h(a[m].content, a[m].previousHash) == h(b[n].content, b[n].previousHash);
      ChainedInit(h, a, m);
      ChainedInit(h, b, n);
      HeadFixesHistory(h, a[..m], b[..n]);
      assert a == a[..m] + [a[m]] && b == b[..n] + [b[n]];
    }
  }

  /** So an accepted log with a known head has not been altered, reordered or cut. */
  lemma AcceptedHeadFixesHistory(h: Hash, contract: Contract, a: seq<Event>, b: seq<Event>, va: Verification, vb: Verification)
    requires Injective(h) && Describes(h, contract, a, va) && Describes(h, contract, b, vb) && va.Valid? && vb.Valid?
    ensures va.head == vb.head <==> a == b
  {
    GoodIff(h, contract, a);
    GoodIff(h, contract, b);
    if va.head == vb.head { HeadFixesHistory(h, a, b); }
  }

  /** Without the head, a log cut short at the end is accepted too. */
  lemma CutLogAccepted(h: Hash, contract: Contract, rows: seq<Event>, n: nat)
    requires n <= |rows| && Describes(h, contract, rows, Valid(|rows|, Head(rows)))
    ensures Describes(h, contract, rows[..n], Valid(n, Head(rows[..n])))
  {
    GoodIff(h, contract, rows);
    ChainedInit(h, rows, n);
    GoodIff(h, contract, rows[..n]);
  }
}
