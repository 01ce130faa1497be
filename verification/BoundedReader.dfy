/**
 * The fixture client's body reader, which stops one byte past the response limit, against the
 * accounting rules its report has to pass.
 */
module BoundedReader {
  import opened Common
  import opened ResponseAccounting

  const BUFFER: nat := 1024

  /** What the stream does next; `size` bytes are ready, and a read takes no more than it asks for. */
  datatype Event = Chunk(size: nat) | Closed | Failed

  /** The surroundings of each turn of the loop: the clock before the read and after it, the timeout call, the stream. */
  datatype Turn = Turn(lateBefore: bool, timeoutSet: bool, event: Event, lateAfter: bool)

  /** `clockStarted` says that the deadline lies after the start of the request. */
  datatype Surroundings = Surroundings(turns: nat -> Turn, clockStarted: bool, contentLength: nat)

  datatype Report = Report(outcome: Outcome, observed: nat, retained: nat)

  function FailureReport(w: Surroundings, late: bool, observed: nat): Report {
    Report(if late && w.clockStarted then DeadlineExceeded else TransportError, observed, observed)
  }

  function ReadSize(event: Event, limit: nat, seen: nat): nat
    requires event.Chunk? && seen <= limit
  {
    Min(event.size, Min(BUFFER, limit + 1 - seen))
  }

  predicate IsEnd(event: Event) { event.Closed? || (event.Chunk? && event.size == 0) }

  /** The report from turn `i` on, when `seen` bytes have been read; None when a timeout cannot be set. */
  function ReportFrom(w: Surroundings, limit: nat, i: nat, seen: nat): Option<Report>
    requires seen <= limit
    decreases limit - seen
  {
    var turn := w.turns(i);
    if turn.lateBefore then Some(FailureReport(w, true, seen))
    else if !turn.timeoutSet then None
    else if IsEnd(turn.event) then
      Some(if turn.lateAfter then Report(DeadlineExceeded, seen, seen)
           else if w.contentLength != seen then Report(TransportError, seen, seen)
           else Report(Completed, seen, seen))
    else if turn.event.Failed? then Some(FailureReport(w, turn.lateAfter, seen))
    else
      var now := seen + ReadSize(turn.event, limit, seen);
      if now > limit then Some(Report(if turn.lateAfter then DeadlineExceeded else ResponseLimitExceeded, limit + 1, limit))
      else ReportFrom(w, limit, i + 1, now)
  }

  method ReadBody(w: Surroundings, limit: nat) returns (r: Option<Report>)
    ensures r == ReportFrom(w, limit, 0, 0)
    ensures r.Some? ==> r.value.observed <= limit + 1 && r.value.retained == Min(r.value.observed, limit)
  {
    ReportSound(w, limit, 0, 0);
    var seen: nat, retained: nat, i: nat := 0, 0, 0;
    while true
      invariant seen <= limit && retained == seen
      invariant ReportFrom(w, limit, 0, 0) == ReportFrom(w, limit, i, seen)
      decreases limit - seen
    {
      var turn := w.turns(i);
      if turn.lateBefore { return Some(FailureReport(w, true, seen)); }
      if !turn.timeoutSet { return None; }
      var remainingProof: nat := limit + 1 - seen;
      var readBound := Min(BUFFER, remainingProof);
      if IsEnd(turn.event) { break; }
      if turn.event.Failed? { return Some(FailureReport(w, turn.lateAfter, seen)); }
      seen := seen + Min(turn.event.size, readBound);
      retained := Min(seen, limit);
      if seen > limit {
        return Some(Report(if turn.lateAfter then DeadlineExceeded else ResponseLimitExceeded, limit + 1, limit));
      }
      i := i + 1;
    }
    if w.turns(i).lateAfter { return Some(Report(DeadlineExceeded, seen, retained)); }
    if w.contentLength != seen { return Some(Report(TransportError, seen, retained)); }
    return Some(Report(Completed, seen, retained));
  }

  // ---- The report and the accounting rules ----

  /** More than the limit was seen exactly when the report says so, or the deadline passed at that moment. */
  ghost predicate Sound(r: Report, limit: nat) {
    && r.observed <= limit + 1 && r.retained == Min(r.observed, limit)
    && (r.outcome == ResponseLimitExceeded ==> r.observed == limit + 1)
    && (r.observed == limit + 1 ==> r.outcome in {ResponseLimitExceeded, DeadlineExceeded})
  }

  lemma {:induction false} ReportSound(w: Surroundings, limit: nat, i: nat, seen: nat)
    requires seen <= limit
    ensures ReportFrom(w, limit, i, seen).Some? ==> Sound(ReportFrom(w, limit, i, seen).value, limit)
    decreases limit - seen
  {
    var turn := w.turns(i);
    if !turn.lateBefore && turn.timeoutSet && !IsEnd(turn.event) && turn.event.Chunk? && seen + ReadSize(turn.event, limit, seen) <= limit {
      ReportSound(w, limit, i + 1, seen + ReadSize(turn.event, limit, seen));
    }
  }

  function Measured(r: Report, completedAt: int): Measurement { Measurement(r.outcome, r.observed, r.retained, completedAt) }

  /** The byte checks always pass; acceptance turns on the completion time alone. */
  lemma AcceptedIff(r: Report, limit: nat, committedAt: int, deadline: int, completedAt: int)
    requires Sound(r, limit)
    ensures CountsPlausible(Measured(r, completedAt)) && WithinHardBound(Measured(r, completedAt), limit)
    ensures Accepted(Measured(r, completedAt), limit, committedAt, deadline) <==>
      && committedAt <= completedAt
      && (if completedAt >= deadline then r.outcome == DeadlineExceeded else r.observed > limit ==> r.outcome == ResponseLimitExceeded)
  {
  }

  /** For every stream: a report stamped past the deadline exactly when it says so passes every check. */
  lemma ReaderAccepted(w: Surroundings, limit: nat, committedAt: int, deadline: int, completedAt: int)
    requires ReportFrom(w, limit, 0, 0).Some? && committedAt <= completedAt
    requires completedAt >= deadline <==> ReportFrom(w, limit, 0, 0).value.outcome == DeadlineExceeded
    ensures Accepted(Measured(ReportFrom(w, limit, 0, 0).value, completedAt), limit, committedAt, deadline)
  {
    ReportSound(w, limit, 0, 0);
    AcceptedIff(ReportFrom(w, limit, 0, 0).value, limit, committedAt, deadline, completedAt);
  }

  // ---- What is observed ----

  /** Bytes the first `n` turns would deliver into a full buffer, were there no limit. */
  ghost function Offered(w: Surroundings, n: nat): nat {
    if n == 0 then 0 else Offered(w, n - 1) + if w.turns(n - 1).event.Chunk? then Min(w.turns(n - 1).event.size, BUFFER) else 0
  }

  /** Nothing was lost: the reader saw the bytes of a number of turns, capped one past the limit. */
  lemma {:induction false} ObservedIsOffered(w: Surroundings, limit: nat, i: nat, seen: nat) returns (n: nat)
    requires seen <= limit && seen == Offered(w, i) && ReportFrom(w, limit, i, seen).Some?
    ensures n >= i && ReportFrom(w, limit, i, seen).value.observed == Min(Offered(w, n), limit + 1)
    decreases limit - seen
  {
    var turn := w.turns(i);
    n := i;
    if !turn.lateBefore && turn.timeoutSet && !IsEnd(turn.event) && turn.event.Chunk? {
      assert Offered(w, i + 1) == seen + Min(turn.event.size, BUFFER);
      if seen + ReadSize(turn.event, limit, seen) <= limit {
        n := ObservedIsOffered(w, limit, i + 1, seen + ReadSize(turn.event, limit, seen));
      } else {
        n := i + 1;
      }
    }
  }

  // ---- When the response counts as complete ----

  /** The turn delivers bytes in time and within the limit, so the loop goes on. */
  ghost predicate GoesOn(w: Surroundings, limit: nat, i: nat, seen: nat)
    requires seen <= limit
  {
    var turn := w.turns(i);
    !turn.lateBefore && turn.timeoutSet && turn.event.Chunk? && turn.event.size > 0 && seen + ReadSize(turn.event, limit, seen) <= limit
  }

  /** The loop goes on from turn `i` with `seen` bytes until turn `n` with `total` bytes. */
  ghost predicate Arrives(w: Surroundings, limit: nat, i: nat, seen: nat, n: nat, total: nat)
    requires seen <= limit
    decreases limit - seen
  {
    (i == n && seen == total) || (GoesOn(w, limit, i, seen) && Arrives(w, limit, i + 1, seen + ReadSize(w.turns(i).event, limit, seen), n, total))
  }

  /** The stream ended, in time, when exactly the announced number of bytes had been seen. */
  ghost predicate EndsComplete(w: Surroundings, n: nat, total: nat) {
    var turn := w.turns(n);
    !turn.lateBefore && turn.timeoutSet && (turn.event.Closed? || turn.event == Chunk(0)) && !turn.lateAfter && w.contentLength == total
  }

  ghost predicate CompleteAt(w: Surroundings, limit: nat, i: nat, seen: nat, n: nat, total: nat)
    requires seen <= limit
  {
    Arrives(w, limit, i, seen, n, total) && EndsComplete(w, n, total)
  }

  ghost predicate Completes(w: Surroundings, limit: nat, i: nat, seen: nat)
    requires seen <= limit
  {
    exists n, total :: CompleteAt(w, limit, i, seen, n, total)
  }

  lemma CompletesNext(w: Surroundings, limit: nat, i: nat, seen: nat, next: nat)
    requires seen <= limit && GoesOn(w, limit, i, seen) && next == seen + ReadSize(w.turns(i).event, limit, seen)
    ensures Completes(w, limit, i, seen) <==> Completes(w, limit, i + 1, next)
  {
    if Completes(w, limit, i, seen) {
      var n, total :| CompleteAt(w, limit, i, seen, n, total);
      assert !(i == n && EndsComplete(w, n, total));
      assert CompleteAt(w, limit, i + 1, next, n, total);
    }
    if Completes(w, limit, i + 1, next) {
      var n, total :| CompleteAt(w, limit, i + 1, next, n, total);
      assert CompleteAt(w, limit, i, seen, n, total);
    }
  }

  lemma CompletesHere(w: Surroundings, limit: nat, i: nat, seen: nat)
    requires seen <= limit && !GoesOn(w, limit, i, seen)
    ensures Completes(w, limit, i, seen) <==> EndsComplete(w, i, seen)
  {
    if EndsComplete(w, i, seen) { assert CompleteAt(w, limit, i, seen, i, seen); }
  }

  /** `Completed` is reported exactly when the stream ended in time with the announced number of bytes seen, all within the limit. */
  lemma {:induction false} CompletedIff(w: Surroundings, limit: nat, i: nat, seen: nat)
    requires seen <= limit
    ensures (ReportFrom(w, limit, i, seen).Some? && ReportFrom(w, limit, i, seen).value.outcome == Completed) <==> Completes(w, limit, i, seen)
    decreases limit - seen
  {
    if GoesOn(w, limit, i, seen) {
      var next := seen + ReadSize(w.turns(i).event, limit, seen);
      CompletedIff(w, limit, i + 1, next);
      CompletesNext(w, limit, i, seen, next);
    } else {
      CompletesHere(w, limit, i, seen);
    }
  }

  /** What made the loop stop at turn `n` with `total` bytes, outcome by outcome. */
  ghost predicate StoppedBy(w: Surroundings, limit: nat, n: nat, total: nat, r: Report) {
    var turn := w.turns(n);
    var ended := turn.event.Closed? || turn.event == Chunk(0);
    && total <= limit && (turn.lateBefore || turn.timeoutSet)
    && match r.outcome
       case Completed => EndsComplete(w, n, total) && r.observed == total
       case ResponseLimitExceeded => !turn.lateBefore && !turn.lateAfter && turn.event.Chunk? && total + turn.event.size > limit
       case DeadlineExceeded => if turn.lateBefore then w.clockStarted else turn.lateAfter && (turn.event.Failed? ==> w.clockStarted)
       case TransportError =>
         || ((turn.lateBefore || turn.event.Failed?) && !w.clockStarted)
         || (!turn.lateBefore && !turn.lateAfter && (turn.event.Failed? || (ended && w.contentLength != total)))
  }

  lemma {:induction false} OutcomeMeaning(w: Surroundings, limit: nat, i: nat, seen: nat) returns (n: nat, total: nat)
    requires seen <= limit && ReportFrom(w, limit, i, seen).Some?
    ensures Arrives(w, limit, i, seen, n, total) && StoppedBy(w, limit, n, total, ReportFrom(w, limit, i, seen).value)
    decreases limit - seen
  {
    if GoesOn(w, limit, i, seen) {
      n, total := OutcomeMeaning(w, limit, i + 1, seen + ReadSize(w.turns(i).event, limit, seen));
    } else {
      n, total := i, seen;
    }
  }
}
