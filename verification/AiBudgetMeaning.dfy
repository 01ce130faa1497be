/** When the ledger accepts a reservation or its finalization, and everything that changes then. */
module AiBudgetMeaning {
  import opened Common
  import opened AiBudget

  // ---- Reserving ----

  /** Asked for within the last minute, for at most five minutes that are not over, and no longer than the configuration. */
  ghost predicate InTime(cfg: Config, q: Request, now: int) {
    && now - 60 * 1_000_000 <= q.requestedAt <= now < q.expiresAt
    && q.expiresAt <= q.requestedAt + 300 * 1_000_000 && q.expiresAt <= cfg.expiresAt
  }

  ghost predicate Known(l: Ledger, q: Request) { q.key in l.idempotency }

  /** A new request for the current version, in time, that asks for something and fits every ceiling. */
  ghost predicate MayReserve(cfg: Config, l: Ledger, q: Request, now: int)
    requires |l.used| == FIELDS
  {
    && RequestContract(q) && !Known(l, q) && cfg.validAt(now) && q.reference == cfg.reference && q.expectedVersion == l.version
    && InTime(cfg, q, now) && (exists f :: 0 <= f < FIELDS && q.amounts[f] > 0)
    && (forall f :: 0 <= f < FIELDS ==> l.used[f] + q.amounts[f] <= cfg.ceilings[f])
  }

  /** One reserved record at the next version, made of the request; usage rises by its amounts; its key is bound to it. */
  ghost predicate ReservationMade(l: Ledger, l': Ledger, q: Request, id: nat) {
    && l'.version == l.version + 1 && id in l'.records && l'.records == l.records[id := l'.records[id]]
    && l'.idempotency == l.idempotency[q.key := (FingerprintOf(q), id)]
    && (var r := l'.records[id];
        && r.id == id && r.version == l.version + 1 && r.state == Reserved && r.finalizedAt == None
        && r.reference == q.reference && r.key == q.key && r.fingerprint == FingerprintOf(q) && r.amounts == q.amounts
        && r.createdAt == q.requestedAt && r.expiresAt == q.expiresAt)
    && |l.used| == |l'.used| == FIELDS && forall f :: 0 <= f < FIELDS ==> l'.used[f] == l.used[f] + q.amounts[f]
  }

  /** Two requests have one fingerprint exactly when they differ in the expected version at most. */
  lemma FingerprintMeaning(q: Request, q': Request)
    ensures FingerprintOf(q) == FingerprintOf(q') <==> q' == q.(expectedVersion := q'.expectedVersion)
  {
  }

  /**
   * A known key answers with its record when the request is the same, and is refused otherwise; an unknown
   * one is reserved exactly when it may be and a version is left to record it at. Nothing else changes
   * anything, except that the last version is used up by a reservation that cannot be recorded.
   */
  lemma ReserveMeaning(cfg: Config, l: Ledger, q: Request, id: nat, now: int)
    requires Wired(l)
    ensures var (l', r) := Reserve(cfg, l, q, id, now);
      && (Known(l, q) ==> l' == l && (r.Ok? <==> RequestContract(q) && l.idempotency[q.key].0 == FingerprintOf(q)))
      && (Known(l, q) && r.Ok? ==> r.value == l.records[l.idempotency[q.key].1])
      && (!Known(l, q) ==> (r.Ok? <==> MayReserve(cfg, l, q, now) && l.version < MAX_VERSION))
      && (!Known(l, q) && r.Ok? ==> ReservationMade(l, l', q, id) && r.value == l'.records[id])
      && (r.Err? ==> l' == if MayReserve(cfg, l, q, now) then l.(version := l.version + 1) else l)
  {
  }

  // ---- Finalizing ----

  /** Still reserved, asked for at the current version under a valid configuration; a commit only before expiry. */
  ghost predicate MayFinalize(cfg: Config, l: Ledger, id: nat, expected: nat, target: State, now: int) {
    && id in l.records && l.records[id].state == Reserved && target != Reserved
    && expected == l.version && cfg.validAt(now) && (target == Committed ==> now < l.records[id].expiresAt)
  }

  /** The record has the state asked for, at the next version and this time; only a release lowers usage; nothing else changes. */
  ghost predicate Finalized(l: Ledger, l': Ledger, id: nat, target: State, now: int) {
    && id in l.records && id in l'.records && l'.version == l.version + 1 && l'.idempotency == l.idempotency
    && l'.records == l.records[id := l'.records[id]]
    && l'.records[id].state == target && l'.records[id].finalizedAt == Some(now) && l'.records[id].version == l.version + 1
    && l'.records[id] == l.records[id].(state := target, finalizedAt := Some(now), version := l.version + 1)
    && |l.used| == |l'.used| == FIELDS
    && forall f :: 0 <= f < FIELDS ==> (l'.used[f] == l.used[f] - if target == Released then l.records[id].amounts[f] else 0)
  }

  /** A commit commits and a release releases, exactly when they may; asking again for the state a record has changes nothing. */
  lemma FinalizeMeaning(cfg: Config, l: Ledger, id: nat, expected: nat, target: State, now: int)
    requires Wired(l) && target != Reserved
    ensures var (l', r) := Finalize(cfg, l, id, expected, target, now);
      && (r.Ok? <==> MayFinalize(cfg, l, id, expected, target, now) || (id in l.records && l.records[id].state == target))
      && (r.Ok? ==> id in l'.records && r.value == l'.records[id])
      && (if MayFinalize(cfg, l, id, expected, target, now) then Finalized(l, l', id, target, now) else l' == l)
  {
  }
}
