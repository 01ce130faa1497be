/** The ledger object itself. */
module AiBudgetLedgers {
  import opened Common
  import opened AiBudget
  import opened AiBudgetMeaning
  import opened AiBudgetRecovery
  import opened AiBudgetTheorems

  class AIBudgetLedger {
    const configuration: Config
    var version: nat
    var records: map<nat, Record>
    var idempotency: map<nat, (Fingerprint, nat)>
    var used: seq<int>

    ghost function Contents(): Ledger
      reads this
    {
      Ledger(version, records, idempotency, used)
    }

    constructor (configuration: Config)
      ensures this.configuration == configuration && Contents() == EMPTY
    {
      this.configuration := configuration;
      version, records, idempotency, used := 0, map[], map[], [0, 0, 0, 0, 0];
    }

    /** Adds the amounts to the usage, dimension by dimension. */
    method Charge(amounts: Amounts)
      requires |used| == FIELDS
      modifies this`used
      ensures used == Plus(old(used), amounts)
    {
      ghost var was := used;
      for f := 0 to FIELDS
        invariant |used| == FIELDS
        invariant forall i :: 0 <= i < f ==> used[i] == was[i] + amounts[i]
        invariant forall i :: f <= i < FIELDS ==> used[i] == was[i]
      {
        used := used[f := used[f] + amounts[f]];
      }
      assert used == Plus(was, amounts);
    }

    /** `id` is the identifier drawn for a new record. */
    method ReserveAmounts(q: Request, id: nat, now: int) returns (r: Result<Record, Code>)
      requires Wired(Contents())
      modifies this
      ensures (Contents(), r) == Reserve(configuration, old(Contents()), q, id, now)
      ensures !Known(old(Contents()), q) ==> (r.Ok? <==> MayReserve(configuration, old(Contents()), q, now) && old(version) < MAX_VERSION)
      ensures !Known(old(Contents()), q) && r.Ok? ==> ReservationMade(old(Contents()), Contents(), q, id)
      ensures Known(old(Contents()), q) ==> Contents() == old(Contents())
    {
      ReserveMeaning(configuration, Contents(), q, id, now);
      if !RequestContract(q) { return Err(RequestMalformed); }
      var fingerprint := FingerprintOf(q);
      if q.key in idempotency {
        var (existing, reservation) := idempotency[q.key];
        if existing != fingerprint { return Err(IdempotencyConflict); }
        assert idempotency[q.key].1 in records;
        return Ok(records[reservation]);
      }
      if !configuration.validAt(now) { return Err(ConfigurationInvalid); }
      if q.reference != configuration.reference { return Err(AuthorityMismatch); }
      if q.expectedVersion != version { return Err(VersionStale); }
      if q.requestedAt > now || now - q.requestedAt > MAX_REQUEST_AGE { return Err(RequestStale); }
      if q.expiresAt <= now || q.expiresAt <= q.requestedAt || q.expiresAt - q.requestedAt > MAX_LIFETIME
         || q.expiresAt > configuration.expiresAt { return Err(RequestStale); }
      if !Positive(q.amounts) { return Err(AmountInvalid); }
      for f := 0 to FIELDS
        invariant unchanged(this)
        invariant forall i :: 0 <= i < f ==> used[i] + q.amounts[i] <= configuration.ceilings[i]
      {
        if used[f] + q.amounts[f] > configuration.ceilings[f] { return Err(Exceeded); }
      }
      version := version + 1;
      var record := NewRecord(q, id, version);
      if !RecordContract(record) { return Err(RecordInvalid); }
      Charge(q.amounts);
      records := records[id := record];
      idempotency := idempotency[q.key := (fingerprint, id)];
      return Ok(record);
    }

    method FinalizeReservation(id: nat, expected: nat, target: State, now: int) returns (r: Result<Record, Code>)
      requires Wired(Contents())
      modifies this
      ensures (Contents(), r) == Finalize(configuration, old(Contents()), id, expected, target, now)
      ensures target != Reserved ==>
        if MayFinalize(configuration, old(Contents()), id, expected, target, now)
        then r.Ok? && Finalized(old(Contents()), Contents(), id, target, now) else Contents() == old(Contents())
    {
      if target != Reserved { FinalizeMeaning(configuration, Contents(), id, expected, target, now); }
      if id !in records { return Err(ReservationUnknown); }
      var record := records[id];
      if record.state == target { return Ok(record); }
      if record.state != Reserved { return Err(StateConflict); }
      if expected != version { return Err(VersionStale); }
      if !configuration.validAt(now) { return Err(ConfigurationInvalid); }
      if target == Committed && record.expiresAt <= now { return Err(ReservationExpired); }
      version := version + 1;
      var updated := record.(version := version, state := target, finalizedAt := Some(now));
      if target == Released {
        ghost var was := used;
        for f := 0 to FIELDS
          invariant version == old(version) + 1 && records == old(records) && idempotency == old(idempotency) && |used| == FIELDS
          invariant forall i :: 0 <= i < f ==> used[i] == was[i] - record.amounts[i]
          invariant forall i :: f <= i < FIELDS ==> used[i] == was[i]
        {
          used := used[f := used[f] - updated.amounts[f]];
        }
        assert used == Minus(was, record.amounts);
      }
      records := records[id := updated];
      return Ok(updated);
    }

    /** All records, sorted by identifier. */
    method Snapshot() returns (recs: seq<Record>)
      requires forall id :: id in records ==> records[id].id == id
      ensures IsSnapshot(recs, records)
    {
      recs := [];
      var todo := records.Keys;
      while todo != {}
        invariant todo <= records.Keys && ById(recs) == records - todo
        invariant forall i :: 0 <= i < |recs| ==> recs[i].id !in todo && forall y :: y in todo ==> recs[i].id < y
        invariant forall i, j :: 0 <= i < j < |recs| ==> recs[i].id < recs[j].id
        decreases todo
      {
        var id := Smallest(todo);
        var next := recs + [records[id]];
        assert next[..|recs|] == recs;
        recs, todo := next, todo - {id};
      }
      assert records - {} == records;
    }
  }

  /** A restart of the live ledger: its snapshot is recovered into a new object, or refused. */
  method Restart(ledger: AIBudgetLedger, now: int) returns (successor: AIBudgetLedger, code: Option<Code>)
    requires Inv(ledger.configuration, ledger.Contents())
    ensures code.None? <==> Restartable(ledger.configuration, ledger.Contents(), now)
    ensures code.None? ==> fresh(successor) && successor.configuration == ledger.configuration
    ensures code.None? ==> successor.Contents() == Recovered(ledger.Contents(), now) && Inv(successor.configuration, successor.Contents())
    ensures code.Some? ==> successor == ledger
  {
    ghost var cfg, l := ledger.configuration, ledger.Contents();
    forall id | id in ledger.records ensures ledger.records[id].id == id { assert RecordSound(cfg, l, id); }
    var recs := ledger.Snapshot();
    SnapshotRecoverable(cfg, l, recs, now);
    var recovered := Recover(ledger.configuration, recs, now);
    if recovered.Err? { return ledger, Some(recovered.error); }
    ghost var top :| RecoveredFrom(l.records, now, top, recovered.value);
    RecoveryComputes(cfg, l, now, top, recovered.value);
    RecoveryKeeps(cfg, l, now);
    successor := new AIBudgetLedger(ledger.configuration);
    successor.version := recovered.value.version;
    successor.records := recovered.value.records;
    successor.idempotency := recovered.value.idempotency;
    successor.used := recovered.value.used;
    code := None;
  }
}
