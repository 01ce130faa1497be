/** The byte and deadline checks that a finished gateway request has to pass. */
module ResponseAccounting {

  datatype Outcome = Completed | DeadlineExceeded | ResponseLimitExceeded | TransportError

  /** What a response reader reports about one request; `completedAt` is stamped by its caller. */
  datatype Measurement = Measurement(outcome: Outcome, observed: int, retained: int, completedAt: int)

  predicate CountsPlausible(m: Measurement) {
    0 <= m.observed && 0 <= m.retained <= m.observed
  }

  predicate WithinHardBound(m: Measurement, limit: int) {
    m.observed <= limit + 1 && m.retained <= limit
  }

  predicate OutcomeFitsLimits(m: Measurement, limit: int, deadline: int) {
    if m.completedAt >= deadline then m.outcome.DeadlineExceeded?
    else m.observed > limit ==> m.outcome.ResponseLimitExceeded?
  }

  predicate ProofComplete(m: Measurement, limit: int) {
    && (m.outcome.ResponseLimitExceeded? ==> m.observed == limit + 1)
    && (!m.outcome.ResponseLimitExceeded? ==>
          || m.retained == m.observed
          || (m.outcome.DeadlineExceeded? && m.observed == limit + 1 && m.retained == limit))
  }

  predicate Accepted(m: Measurement, limit: int, committedAt: int, deadline: int) {
    && CountsPlausible(m)
    && WithinHardBound(m, limit)
    && m.completedAt >= committedAt
    && OutcomeFitsLimits(m, limit, deadline)
    && ProofComplete(m, limit)
  }

  /** What is accepted, outcome by outcome. */
  ghost predicate Tabulated(m: Measurement, limit: int, committedAt: int, deadline: int) {
    && committedAt <= m.completedAt
    && match m.outcome
       case Completed => m.completedAt < deadline && 0 <= m.retained == m.observed <= limit
       case TransportError => m.completedAt < deadline && 0 <= m.retained == m.observed <= limit
       case ResponseLimitExceeded => m.completedAt < deadline && m.observed == limit + 1 && 0 <= m.retained <= limit
       case DeadlineExceeded =>
         || 0 <= m.retained == m.observed <= limit
         || (deadline <= m.completedAt && m.observed == limit + 1 && 0 <= m.retained == limit)
  }

  /** Finalization refuses every report that is not in the table, and no other. */
  lemma AcceptedMeaning(m: Measurement, limit: int, committedAt: int, deadline: int)
    ensures Accepted(m, limit, committedAt, deadline) <==> Tabulated(m, limit, committedAt, deadline)
  {
  }
}
