/**
 * The reservation ledger of one AI provider configuration: versioned, idempotent reservations over
 * five budget dimensions, with recovery from a snapshot of its records.
 */
module AiBudget {
  import opened Common
  import opened MapSum

  /** Input tokens, output tokens, requests, cost and runtime, in this order. */
  const FIELDS: nat := 5

  const MAX_VERSION: nat := 0x7fff_ffff_ffff_ffff

  const AMOUNT_LIMITS: seq<nat> := [1_000_000, 1_000_000, 10_000, 1_000_000_000, 86_400]

  const SECOND: int := 1_000_000
  const MAX_LIFETIME: int := 300 * SECOND
  const MAX_REQUEST_AGE: int := 60 * SECOND

  type Amounts = a: seq<nat> | |a| == 5 witness [0, 0, 0, 0, 0]

  datatype Reference = Reference(configuration: nat, registry: nat, revision: nat)

  datatype Config = Config(reference: Reference, ceilings: Amounts, expiresAt: int, validAt: int -> bool)

  datatype Request = Request(reference: Reference, key: nat, expectedVersion: nat, amounts: Amounts, requestedAt: int, expiresAt: int)

  /** The request without its expected version; its hash is taken to be injective. */
  datatype Fingerprint = Fingerprint(reference: Reference, key: nat, amounts: Amounts, requestedAt: int, expiresAt: int)

  datatype State = Reserved | Committed | Released

  datatype Record = Record(id: nat, reference: Reference, key: nat, fingerprint: Fingerprint, version: nat, state: State,
                           amounts: Amounts, createdAt: int, expiresAt: int, finalizedAt: Option<int>)

  datatype Ledger = Ledger(version: nat, records: map<nat, Record>, idempotency: map<nat, (Fingerprint, nat)>, used: seq<int>)

  datatype Code =
    | RequestMalformed | IdempotencyConflict | ConfigurationInvalid | AuthorityMismatch | VersionStale | RequestStale
    | AmountInvalid | Exceeded | RecordInvalid | ReservationUnknown | StateConflict | ReservationExpired
    | RecoveryInvalid | RecoveryMismatch | RecoveryAmbiguous | RecoveryExceeded

  const EMPTY: Ledger := Ledger(0, map[], map[], [0, 0, 0, 0, 0])

  // ---- The operations on values ----

  function FingerprintOf(q: Request): Fingerprint {
    Fingerprint(q.reference, q.key, q.amounts, q.requestedAt, q.expiresAt)
  }

  predicate WithinLimits(a: Amounts) { forall f :: 0 <= f < FIELDS ==> a[f] <= AMOUNT_LIMITS[f] }

  predicate Positive(a: Amounts) { exists f :: 0 <= f < FIELDS && a[f] > 0 }

  predicate RequestContract(q: Request) { q.expectedVersion <= MAX_VERSION && WithinLimits(q.amounts) }

  predicate RecordContract(r: Record) {
    1 <= r.version <= MAX_VERSION && WithinLimits(r.amounts) && (r.state == Reserved <==> r.finalizedAt == None)
  }

  predicate Fits(used: seq<int>, a: Amounts, ceilings: Amounts)
    requires |used| == FIELDS
  {
    forall f :: 0 <= f < FIELDS ==> used[f] + a[f] <= ceilings[f]
  }

  function Plus(used: seq<int>, a: Amounts): (r: seq<int>)
    requires |used| == FIELDS
    ensures |r| == FIELDS
  {
    seq(FIELDS, f requires 0 <= f < FIELDS => used[f] + a[f])
  }

  function Minus(used: seq<int>, a: Amounts): (r: seq<int>)
    requires |used| == FIELDS
    ensures |r| == FIELDS
  {
    seq(FIELDS, f requires 0 <= f < FIELDS => used[f] - a[f])
  }

  predicate Wired(l: Ledger) {
    |l.used| == FIELDS && forall key :: key in l.idempotency ==> l.idempotency[key].1 in l.records
  }

  predicate Timely(cfg: Config, q: Request, now: int) {
    && q.requestedAt <= now && now - q.requestedAt <= MAX_REQUEST_AGE
    && now < q.expiresAt && q.requestedAt < q.expiresAt && q.expiresAt - q.requestedAt <= MAX_LIFETIME && q.expiresAt <= cfg.expiresAt
  }

  function NewRecord(q: Request, id: nat, version: nat): Record {
    Record(id, q.reference, q.key, FingerprintOf(q), version, Reserved, q.amounts, q.requestedAt, q.expiresAt, None)
  }

  /** `id` is the identifier drawn for a new record. The version has advanced even when the record contract fails. */
  function Reserve(cfg: Config, l: Ledger, q: Request, id: nat, now: int): (Ledger, Result<Record, Code>)
    requires Wired(l)
  {
    if !RequestContract(q) then (l, Err(RequestMalformed))
    else if q.key in l.idempotency then
      if l.idempotency[q.key].0 != FingerprintOf(q) then (l, Err(IdempotencyConflict))
      else (l, Ok(l.records[l.idempotency[q.key].1]))
    else if !cfg.validAt(now) then (l, Err(ConfigurationInvalid))
    else if q.reference != cfg.reference then (l, Err(AuthorityMismatch))
    else if q.expectedVersion != l.version then (l, Err(VersionStale))
    else if !Timely(cfg, q, now) then (l, Err(RequestStale))
    else if !Positive(q.amounts) then (l, Err(AmountInvalid))
    else if !Fits(l.used, q.amounts, cfg.ceilings) then (l, Err(Exceeded))
    else
      var record := NewRecord(q, id, l.version + 1);
      if !RecordContract(record) then (l.(version := l.version + 1), Err(RecordInvalid))
      else (Ledger(l.version + 1, l.records[id := record], l.idempotency[q.key := (record.fingerprint, id)], Plus(l.used, q.amounts)),
            Ok(record))
  }

  /** `target` is the final state asked for. */
  function Finalize(cfg: Config, l: Ledger, id: nat, expected: nat, target: State, now: int): (Ledger, Result<Record, Code>)
    requires Wired(l)
  {
    if id !in l.records then (l, Err(ReservationUnknown))
    else
      var record := l.records[id];
      if record.state == target then (l, Ok(record))
      else if record.state != Reserved then (l, Err(StateConflict))
      else if expected != l.version then (l, Err(VersionStale))
      else if !cfg.validAt(now) then (l, Err(ConfigurationInvalid))
      else if target == Committed && record.expiresAt <= now then (l, Err(ReservationExpired))
      else
        var updated := record.(version := l.version + 1, state := target, finalizedAt := Some(now));
        (Ledger(l.version + 1, l.records[id := updated], l.idempotency,
                if target == Released then Minus(l.used, record.amounts) else l.used),
         Ok(updated))
  }

  // ---- The invariant ----

  /** What one record counts for in dimension `f`. */
  function Weight(r: Record, f: nat): int
    requires f < FIELDS
  {
    if r.state == Released then 0 else r.amounts[f]
  }

  function Weights(records: map<nat, Record>, f: nat): map<nat, int>
    requires f < FIELDS
  {
    map id | id in records :: Weight(records[id], f)
  }

  ghost function Usage(records: map<nat, Record>, f: nat): int
    requires f < FIELDS
  {
    Sum(Weights(records, f))
  }

  predicate Lasting(cfg: Config, r: Record) {
    r.createdAt < r.expiresAt && r.expiresAt - r.createdAt <= MAX_LIFETIME && r.expiresAt <= cfg.expiresAt && Positive(r.amounts)
  }

  /** Finalized, by a clock that had gone back, before it was created. */
  predicate Backdated(r: Record) { r.finalizedAt.Some? && r.finalizedAt.value < r.createdAt }

  /** The lifetime checks recovery makes of a record. */
  predicate Lifetime(cfg: Config, r: Record) { Lasting(cfg, r) && !Backdated(r) }

  ghost predicate RecordSound(cfg: Config, l: Ledger, id: nat)
    requires id in l.records
  {
    var r := l.records[id];
    && r.id == id && r.reference == cfg.reference && Lasting(cfg, r) && WithinLimits(r.amounts)
    && (r.state == Reserved <==> r.finalizedAt == None)
    && 1 <= r.version <= l.version && r.key in l.idempotency && l.idempotency[r.key] == (r.fingerprint, id)
  }

  ghost predicate KeySound(l: Ledger, key: nat)
    requires key in l.idempotency
  {
    l.idempotency[key].1 in l.records && l.records[l.idempotency[key].1].key == key
  }

  ghost predicate VersionsApart(records: map<nat, Record>, i: nat, j: nat)
    requires i in records && j in records
  {
    records[i].version == records[j].version ==> i == j
  }

  ghost predicate Tallied(cfg: Config, l: Ledger, f: nat)
    requires f < FIELDS && |l.used| == FIELDS
  {
    l.used[f] == Usage(l.records, f) && l.used[f] <= cfg.ceilings[f]
  }

  /** Some record carries the version, or nothing was ever recorded. */
  ghost predicate Carried(records: map<nat, Record>, version: nat) {
    if records == map[] then version == 0 else exists id :: id in records && records[id].version == version
  }

  /** Only a reservation refused by the record contract leaves a gap, at the end of the version range. */
  ghost predicate VersionExplained(l: Ledger) {
    Carried(l.records, l.version) || l.version == MAX_VERSION + 1
  }

  ghost predicate RecordsSound(cfg: Config, l: Ledger) {
    && (forall id {:trigger RecordSound(cfg, l, id)} :: id in l.records ==> RecordSound(cfg, l, id))
    && (forall key {:trigger KeySound(l, key)} :: key in l.idempotency ==> KeySound(l, key))
    && (forall i, j {:trigger VersionsApart(l.records, i, j)} :: i in l.records && j in l.records ==> VersionsApart(l.records, i, j))
  }

  /** Nothing in it depends on the clock. */
  ghost predicate Inv(cfg: Config, l: Ledger) {
    && RecordsSound(cfg, l) && |l.used| == FIELDS && VersionExplained(l)
    && (forall f {:trigger Tallied(cfg, l, f)} :: 0 <= f < FIELDS ==> Tallied(cfg, l, f))
  }

  /** What a clock that does not go back adds. */
  ghost predicate Dated(l: Ledger, clock: int) {
    forall id :: id in l.records ==> l.records[id].createdAt <= clock && !Backdated(l.records[id])
  }

  lemma InvWired(cfg: Config, l: Ledger)
    requires Inv(cfg, l)
    ensures Wired(l)
  {
    forall key | key in l.idempotency ensures l.idempotency[key].1 in l.records { assert KeySound(l, key); }
  }

  lemma UsagePut(records: map<nat, Record>, id: nat, r: Record, f: nat)
    requires f < FIELDS
    ensures Usage(records[id := r], f) == Usage(records, f) + Weight(r, f) - (if id in records then Weight(records[id], f) else 0)
  {
    assert Weights(records[id := r], f) == Weights(records, f)[id := Weight(r, f)];
    SumPut(Weights(records, f), id, Weight(r, f));
  }

  // ---- Every operation keeps it ----

  /** One record is written at the next version. */
  ghost predicate Writes(l: Ledger, l': Ledger, id: nat, r: Record) {
    && l'.version == l.version + 1 && r.version == l'.version && l'.records == l.records[id := r] && |l.used| == |l'.used| == FIELDS
    && (id in l.records ==> r.key == l.records[id].key && r.fingerprint == l.records[id].fingerprint && l'.idempotency == l.idempotency)
    && (id !in l.records ==> r.key !in l.idempotency && l'.idempotency == l.idempotency[r.key := (r.fingerprint, id)])
  }

  lemma WriteKeepsRecords(cfg: Config, l: Ledger, l': Ledger, id: nat, r: Record)
    requires RecordsSound(cfg, l) && Writes(l, l', id, r) && RecordSound(cfg, l', id)
    ensures RecordsSound(cfg, l')
  {
    forall j | j in l'.records ensures RecordSound(cfg, l', j) {
      if j != id { assert RecordSound(cfg, l, j); }
    }
    forall key | key in l'.idempotency ensures KeySound(l', key) {
      if key in l.idempotency { assert KeySound(l, key); }
    }
    forall i, j | i in l'.records && j in l'.records ensures VersionsApart(l'.records, i, j) {
      if i != id && j != id { assert VersionsApart(l.records, i, j); }
      else if i != id { assert RecordSound(cfg, l, i); }
      else if j != id { assert RecordSound(cfg, l, j); }
    }
  }

  lemma WriteKeepsTally(cfg: Config, l: Ledger, l': Ledger, id: nat, r: Record, f: nat)
    requires Writes(l, l', id, r) && f < FIELDS && Tallied(cfg, l, f)
    requires l'.used[f] == l.used[f] + Weight(r, f) - (if id in l.records then Weight(l.records[id], f) else 0)
    requires l'.used[f] <= cfg.ceilings[f]
    ensures Tallied(cfg, l', f)
  {
    UsagePut(l.records, id, r, f);
  }

  lemma ReserveKeeps(cfg: Config, l: Ledger, q: Request, id: nat, now: int)
    requires Inv(cfg, l) && id !in l.records
    ensures Wired(l) && Inv(cfg, Reserve(cfg, l, q, id, now).0)
  {
    InvWired(cfg, l);
    var l' := Reserve(cfg, l, q, id, now).0;
    if id in l'.records {
      WriteKeepsRecords(cfg, l, l', id, l'.records[id]);
      forall f | 0 <= f < FIELDS ensures Tallied(cfg, l', f) {
        assert Tallied(cfg, l, f);
        WriteKeepsTally(cfg, l, l', id, l'.records[id], f);
      }
    } else {
      GapKeeps(cfg, l, l');
    }
  }

  /** The last version may advance without a record. */
  lemma GapKeeps(cfg: Config, l: Ledger, l': Ledger)
    requires Inv(cfg, l)
    requires l' == l || (l' == l.(version := l.version + 1) && l.version == MAX_VERSION)
    ensures Inv(cfg, l')
  {
    forall j | j in l'.records ensures RecordSound(cfg, l', j) { assert RecordSound(cfg, l, j); }
    forall key | key in l'.idempotency ensures KeySound(l', key) { assert KeySound(l, key); }
    forall f | 0 <= f < FIELDS ensures Tallied(cfg, l', f) { assert Tallied(cfg, l, f); }
  }

  lemma FinalizeKeeps(cfg: Config, l: Ledger, id: nat, expected: nat, target: State, now: int)
    requires Inv(cfg, l) && target != Reserved
    ensures Wired(l) && Inv(cfg, Finalize(cfg, l, id, expected, target, now).0)
  {
    InvWired(cfg, l);
    var l' := Finalize(cfg, l, id, expected, target, now).0;
    if l' != l {
      assert RecordSound(cfg, l, id);
      WriteKeepsRecords(cfg, l, l', id, l'.records[id]);
      forall f | 0 <= f < FIELDS ensures Tallied(cfg, l', f) {
        assert Tallied(cfg, l, f);
        WriteKeepsTally(cfg, l, l', id, l'.records[id], f);
      }
    }
  }

  // ---- With a clock that does not go back ----

  lemma ReserveDates(cfg: Config, l: Ledger, q: Request, id: nat, clock: int, now: int)
    requires Wired(l) && Dated(l, clock) && clock <= now && id !in l.records
    ensures Dated(Reserve(cfg, l, q, id, now).0, now)
  {
  }

  lemma FinalizeDates(cfg: Config, l: Ledger, id: nat, expected: nat, target: State, clock: int, now: int)
    requires Wired(l) && Dated(l, clock) && clock <= now
    ensures Dated(Finalize(cfg, l, id, expected, target, now).0, now)
  {
  }
}
