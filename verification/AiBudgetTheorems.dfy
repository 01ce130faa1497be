/** Recovery refines the live ledger, and what holds over every run with restarts. */
module AiBudgetTheorems {
  import opened Common
  import opened MapSum
  import opened AiBudget
  import opened AiBudgetRecovery

  // ---- One outcome, whatever the order of the records ----

  lemma SameIndex(base: map<nat, Record>, i: map<nat, (Fingerprint, nat)>, j: map<nat, (Fingerprint, nat)>)
    requires Indexed(base, i) && Indexed(base, j)
    ensures i == j
  {
    forall key | key in i ensures key in j && i[key] == j[key] { var id := i[key].1; assert base[id].key == key; }
    forall key | key in j ensures key in i { var id := j[key].1; assert base[id].key == key; }
  }

  lemma RecoveryUnique(base: map<nat, Record>, now: int, top: nat, l: Ledger, top': nat, l': Ledger)
    requires RecoveredFrom(base, now, top, l) && RecoveredFrom(base, now, top', l')
    ensures l == l'
  {
    assert top == top';
    SameIndex(base, l.idempotency, l'.idempotency);
    assert l.used == l'.used;
  }

  lemma {:induction false} OccursOnce(recs: seq<Record>, r: Record)
    requires Distinct(recs)
    ensures multiset(recs)[r] <= 1
  {
    if recs != [] {
      var n := |recs| - 1;
      assert recs == recs[..n] + [recs[n]];
      assert Distinct(recs[..n]);
      OccursOnce(recs[..n], r);
      if r in recs[..n] {
        var j :| 0 <= j < n && recs[j] == r;
        assert !Clash(recs[j], recs[n]);
      }
    }
  }

  lemma DistinctMembers(recs: seq<Record>, r: Record, s: Record)
    requires Distinct(recs) && r in recs && s in recs && r != s
    ensures !Clash(r, s)
  {
    var i :| 0 <= i < |recs| && recs[i] == r;
    var j :| 0 <= j < |recs| && recs[j] == s;
    if i < j { assert !Clash(recs[i], recs[j]); } else { assert !Clash(recs[j], recs[i]); }
  }

  lemma OccursTwice(recs: seq<Record>, i: nat, j: nat)
    requires i < j < |recs| && recs[i] == recs[j]
    ensures multiset(recs)[recs[i]] >= 2
  {
    assert recs == recs[..j] + [recs[j]] + recs[j + 1..];
    assert recs[i] in recs[..j];
  }

  lemma DistinctPermuted(recs: seq<Record>, recs': seq<Record>)
    requires multiset(recs) == multiset(recs') && Distinct(recs)
    ensures Distinct(recs')
  {
    forall i, j | 0 <= i < j < |recs'| ensures !Clash(recs'[i], recs'[j]) {
      assert recs'[i] in multiset(recs') && recs'[j] in multiset(recs');
      if recs'[i] == recs'[j] {
        OccursTwice(recs', i, j);
        OccursOnce(recs, recs'[i]);
      } else {
        DistinctMembers(recs, recs'[i], recs'[j]);
      }
    }
  }

  lemma ByIdPermuted(recs: seq<Record>, recs': seq<Record>)
    requires multiset(recs) == multiset(recs') && Distinct(recs) && Distinct(recs')
    ensures ById(recs) == ById(recs')
  {
    ByIdMembers(recs);
    ByIdMembers(recs');
    forall r | r in multiset(recs) ensures r in recs && r in recs' { assert r in multiset(recs'); }
    forall id | id in ById(recs) ensures id in ById(recs') && ById(recs')[id] == ById(recs)[id] {
      assert ById(recs)[id] in multiset(recs);
    }
    forall id | id in ById(recs') ensures id in ById(recs) {
      assert ById(recs')[id] in multiset(recs');
    }
  }

  lemma RecoverablePermuted(cfg: Config, recs: seq<Record>, recs': seq<Record>, now: int)
    requires multiset(recs) == multiset(recs') && Recoverable(cfg, recs, now)
    ensures Recoverable(cfg, recs', now) && ById(recs') == ById(recs)
  {
    DistinctPermuted(recs, recs');
    ByIdPermuted(recs, recs');
    forall i | 0 <= i < |recs'| ensures Acceptable(cfg, recs'[i]) {
      assert recs'[i] in multiset(recs');
      assert recs'[i] in recs;
    }
  }

  /** Whether recovery succeeds, and the ledger it yields, do not depend on the order of the records. */
  lemma OrderIrrelevant(cfg: Config, recs: seq<Record>, recs': seq<Record>, now: int, top: nat, l: Ledger, top': nat, l': Ledger)
    requires multiset(recs) == multiset(recs')
    ensures Recoverable(cfg, recs, now) <==> Recoverable(cfg, recs', now)
    ensures Recoverable(cfg, recs, now) && RecoveredFrom(ById(recs), now, top, l) && RecoveredFrom(ById(recs'), now, top', l') ==> l == l'
  {
    if Recoverable(cfg, recs, now) {
      RecoverablePermuted(cfg, recs, recs', now);
      if RecoveredFrom(ById(recs), now, top, l) && RecoveredFrom(ById(recs'), now, top', l') {
        RecoveryUnique(ById(recs), now, top, l, top', l');
      }
    }
    if Recoverable(cfg, recs', now) { RecoverablePermuted(cfg, recs', recs, now); }
  }

  // ---- Recovering a snapshot of the live ledger ----

  /** The records of the ledger, each once, in identifier order. */
  ghost predicate IsSnapshot(recs: seq<Record>, records: map<nat, Record>) {
    && (forall i, j :: 0 <= i < j < |recs| ==> recs[i].id < recs[j].id)
    && ById(recs) == records
  }

  ghost predicate Storable(l: Ledger) { forall id :: id in l.records ==> l.records[id].version <= MAX_VERSION }

  lemma InvIndexed(cfg: Config, l: Ledger)
    requires Inv(cfg, l)
    ensures Indexed(l.records, l.idempotency)
  {
    forall id | id in l.records
      ensures l.records[id].key in l.idempotency && l.idempotency[l.records[id].key] == (l.records[id].fingerprint, id)
    {
      assert RecordSound(cfg, l, id);
    }
    forall key | key in l.idempotency ensures l.idempotency[key].1 in l.records && l.records[l.idempotency[key].1].key == key {
      assert KeySound(l, key);
    }
  }

  lemma SnapshotDistinct(cfg: Config, l: Ledger, recs: seq<Record>)
    requires Inv(cfg, l) && IsSnapshot(recs, l.records)
    ensures Distinct(recs) && forall i :: 0 <= i < |recs| ==> recs[i].id in l.records && recs[i] == l.records[recs[i].id]
  {
    ByIdMembers(recs);
    forall i | 0 <= i < |recs| ensures recs[i].id in l.records && recs[i] == l.records[recs[i].id] {
      var j :| 0 <= j < |recs| && recs[j] == ById(recs)[recs[i].id] && recs[j].id == recs[i].id;
      assert i == j;
    }
    forall i, j | 0 <= i < j < |recs| ensures !Clash(recs[i], recs[j]) {
      assert VersionsApart(l.records, recs[i].id, recs[j].id);
      assert RecordSound(cfg, l, recs[i].id) && RecordSound(cfg, l, recs[j].id);
    }
  }

  /** What the expired reservations hold in dimension `f`. */
  function ExpiredAmounts(records: map<nat, Record>, now: int, f: nat): map<nat, int>
    requires f < FIELDS
  {
    map id | id in records :: if HasExpired(records[id], now) then records[id].amounts[f] else 0
  }

  /** Releasing the expired reservations frees exactly what they held. */
  lemma {:induction false} LapsedUsage(records: map<nat, Record>, now: int, f: nat)
    requires f < FIELDS
    ensures Usage(Lapsed(records, now), f) == Usage(records, f) - Sum(ExpiredAmounts(records, now, f))
    decreases |records|
  {
    if records == map[] {
      assert Lapsed(records, now) == records && ExpiredAmounts(records, now, f) == map[];
    } else {
      var id :| id in records;
      var r, rest := records[id], records - {id};
      LapsedUsage(rest, now, f);
      assert records == rest[id := r];
      UsagePut(rest, id, r, f);
      LapsedPut(rest, id, r, now, f);
      ExpiredPut(rest, id, r, now, f);
    }
  }

  lemma ExpiredPut(records: map<nat, Record>, id: nat, r: Record, now: int, f: nat)
    requires f < FIELDS && id !in records
    ensures Sum(ExpiredAmounts(records[id := r], now, f)) ==
      Sum(ExpiredAmounts(records, now, f)) + if HasExpired(r, now) then r.amounts[f] else 0
  {
    var held := if HasExpired(r, now) then r.amounts[f] else 0;
    assert ExpiredAmounts(records[id := r], now, f) == ExpiredAmounts(records, now, f)[id := held];
    SumPut(ExpiredAmounts(records, now, f), id, held);
  }

  lemma LapsedLess(records: map<nat, Record>, now: int, f: nat)
    requires f < FIELDS
    ensures Usage(Lapsed(records, now), f) <= Usage(records, f)
  {
    LapsedUsage(records, now, f);
    SumNonNegative(ExpiredAmounts(records, now, f));
  }

  ghost predicate NoneBackdated(l: Ledger) { forall id :: id in l.records ==> !Backdated(l.records[id]) }

  /**
   * A snapshot of a live ledger can be recovered exactly when the configuration is still valid, no
   * record was written past the last version a stored record may carry, and no record was finalized,
   * by a clock that had gone back, before it was created.
   */
  lemma SnapshotRecoverable(cfg: Config, l: Ledger, recs: seq<Record>, now: int)
    requires Inv(cfg, l) && IsSnapshot(recs, l.records)
    ensures Recoverable(cfg, recs, now) <==> cfg.validAt(now) && Storable(l) && NoneBackdated(l)
  {
    SnapshotDistinct(cfg, l, recs);
    ByIdMembers(recs);
    forall f | 0 <= f < FIELDS ensures Usage(Lapsed(l.records, now), f) <= cfg.ceilings[f] {
      assert Tallied(cfg, l, f);
      LapsedLess(l.records, now, f);
    }
    forall i | 0 <= i < |recs| ensures Acceptable(cfg, recs[i]) <==> recs[i].version <= MAX_VERSION && !Backdated(recs[i]) {
      assert RecordSound(cfg, l, recs[i].id);
    }
    forall id | id in l.records ensures exists i :: 0 <= i < |recs| && recs[i] == l.records[id] {}
  }

  /** With a clock that never went back, only validity and the version range matter. */
  lemma DatedSnapshotRecoverable(cfg: Config, l: Ledger, clock: int, recs: seq<Record>, now: int)
    requires Inv(cfg, l) && Dated(l, clock) && IsSnapshot(recs, l.records)
    ensures Recoverable(cfg, recs, now) <==> cfg.validAt(now) && Storable(l)
  {
    SnapshotRecoverable(cfg, l, recs, now);
  }

  lemma {:induction false} TopExists(records: map<nat, Record>)
    ensures exists v :: IsTop(records, v)
    decreases |records|
  {
    if records == map[] {
      assert IsTop(records, 0);
    } else {
      var id :| id in records;
      var rest := records - {id};
      TopExists(rest);
      var v: nat :| IsTop(rest, v);
      var w: nat := if v >= records[id].version then v else records[id].version;
      assert forall j :: j in records ==> j == id || (j in rest && records[j] == rest[j]);
      assert Carried(records, w) by {
        if w == records[id].version { assert records[id].version == w; }
        else { var j :| j in rest && rest[j].version == v; assert records[j].version == w; }
      }
      assert IsTop(records, w);
    }
  }

  ghost function Top(records: map<nat, Record>): (v: nat)
    ensures IsTop(records, v)
  {
    TopExists(records);
    var v :| IsTop(records, v);
    v
  }

  /** The ledger recovery yields from a live one. */
  ghost function Recovered(l: Ledger, now: int): Ledger {
    var expired := Expired(l.records, now);
    Ledger(Top(l.records) + |expired|, Settle(l.records, expired, expired, Top(l.records), now), l.idempotency,
           seq(FIELDS, f requires 0 <= f < FIELDS => Usage(Lapsed(l.records, now), f)))
  }

  lemma RecoveryComputes(cfg: Config, l: Ledger, now: int, top: nat, l': Ledger)
    requires Inv(cfg, l) && RecoveredFrom(l.records, now, top, l')
    ensures l' == Recovered(l, now)
  {
    InvIndexed(cfg, l);
    assert RecoveredFrom(l.records, now, Top(l.records), Recovered(l, now));
    RecoveryUnique(l.records, now, top, l', Top(l.records), Recovered(l, now));
  }

  /** A version the records can explain is reproduced; one advanced by a refused record is not. */
  lemma VersionReproduced(cfg: Config, l: Ledger, now: int)
    requires Inv(cfg, l) && Storable(l)
    ensures Recovered(l, now).version == l.version + |Expired(l.records, now)| <==> l.version <= MAX_VERSION
  {
    forall id | id in l.records ensures l.records[id].version <= l.version { assert RecordSound(cfg, l, id); }
  }

  /**
   * With nothing expired and the version in range, recovery reproduces the ledger as it was;
   * otherwise every record that has not expired is unchanged, and an expired one is released.
   */
  lemma RecoveryRefines(cfg: Config, l: Ledger, now: int, id: nat)
    requires Inv(cfg, l) && Storable(l)
    ensures Recovered(l, now).records.Keys == l.records.Keys && Recovered(l, now).idempotency == l.idempotency
    ensures id in l.records && !HasExpired(l.records[id], now) ==> Recovered(l, now).records[id] == l.records[id]
    ensures id in l.records && HasExpired(l.records[id], now) ==>
      var r := Recovered(l, now).records[id];
      r == l.records[id].(state := Released, finalizedAt := Some(now), version := r.version)
      && Top(l.records) < r.version <= Recovered(l, now).version
    ensures Expired(l.records, now) == {} && l.version <= MAX_VERSION ==> Recovered(l, now) == l
  {
    var expired := Expired(l.records, now);
    if id in expired {
      SubsetSize(Before(expired, id), expired - {id});
    }
    if expired == {} && l.version <= MAX_VERSION {
      VersionReproduced(cfg, l, now);
      assert Settle(l.records, expired, expired, Top(l.records), now) == l.records;
      assert forall j :: j in l.records && HasExpired(l.records[j], now) ==> j in expired;
      assert Lapsed(l.records, now) == l.records;
      forall f | 0 <= f < FIELDS ensures Recovered(l, now).used[f] == l.used[f] { assert Tallied(cfg, l, f); }
      assert Recovered(l, now).used == l.used;
    }
  }

  lemma {:induction false} SubsetSize(a: set<nat>, b: set<nat>)
    requires a <= b
    ensures |a| <= |b|
  {
    assert |b - a| == |b| - |a|;
  }

  /** Usage after recovery leaves out exactly the expired amounts. */
  lemma RecoveredUsage(cfg: Config, l: Ledger, now: int, f: nat)
    requires Inv(cfg, l) && f < FIELDS
    ensures Recovered(l, now).used[f] == l.used[f] - Sum(ExpiredAmounts(l.records, now, f))
  {
    assert Tallied(cfg, l, f);
    LapsedUsage(l.records, now, f);
  }

  /** At the last version a reservation is refused by the record contract, and recovery forgets that version. */
  lemma RefusedRecordLeavesGap(cfg: Config, l: Ledger, q: Request, id: nat, now: int)
    requires Inv(cfg, l) && Storable(l) && id !in l.records && Wired(l)
    ensures Reserve(cfg, l, q, id, now).1 == Err(RecordInvalid) ==>
      var l' := Reserve(cfg, l, q, id, now).0;
      l.version == MAX_VERSION && l' == l.(version := MAX_VERSION + 1) && Recovered(l', now).version == MAX_VERSION + |Expired(l.records, now)|
  {
    if Reserve(cfg, l, q, id, now).1 == Err(RecordInvalid) {
      var l' := Reserve(cfg, l, q, id, now).0;
      assert l.version == MAX_VERSION;
      assert Recovered(l', now).version == Recovered(l, now).version;
      VersionReproduced(cfg, l, now);
    }
  }

  // ---- Recovery keeps the invariant ----

  lemma SettledVersions(cfg: Config, l: Ledger, now: int, i: nat, j: nat)
    requires Inv(cfg, l) && i in l.records && j in l.records
    ensures VersionsApart(Recovered(l, now).records, i, j)
  {
    var expired := Expired(l.records, now);
    assert VersionsApart(l.records, i, j);
    if i in expired && j in expired && i < j { RankGrows(expired, i, j); }
    if i in expired && j in expired && j < i { RankGrows(expired, j, i); }
  }

  lemma RankGrows(ids: set<nat>, i: nat, j: nat)
    requires i in ids && i < j
    ensures Rank(ids, i) < Rank(ids, j)
  {
    SubsetSize(Before(ids, i), Before(ids, j) - {i});
  }

  lemma RankBelow(ids: set<nat>, id: nat)
    requires id in ids
    ensures Rank(ids, id) < |ids|
  {
    SubsetSize(Before(ids, id), ids - {id});
  }

  lemma SettledRecord(cfg: Config, l: Ledger, now: int, id: nat)
    requires Inv(cfg, l) && id in l.records
    ensures RecordSound(cfg, Recovered(l, now), id)
  {
    assert RecordSound(cfg, l, id);
    if id in Expired(l.records, now) { RankBelow(Expired(l.records, now), id); }
  }

  lemma SettledUsage(l: Ledger, now: int, f: nat)
    requires f < FIELDS
    ensures Usage(Recovered(l, now).records, f) == Usage(Lapsed(l.records, now), f)
  {
    assert Weights(Recovered(l, now).records, f) == Weights(Lapsed(l.records, now), f);
  }

  /** The last expired reservation carries the recovered version. */
  lemma SettledCarries(l: Ledger, now: int)
    ensures Carried(Recovered(l, now).records, Recovered(l, now).version)
  {
    var expired, l' := Expired(l.records, now), Recovered(l, now);
    if expired != {} {
      LargestRank(expired);
      var id :| id in expired && Rank(expired, id) == |expired| - 1;
      assert l'.records[id].version == l'.version;
    } else if l.records != map[] {
      var id :| id in l.records && l.records[id].version == Top(l.records);
      assert l'.records[id].version == l'.version;
    }
  }

  lemma {:induction false} LargestRank(ids: set<nat>)
    requires ids != {}
    ensures exists x :: x in ids && Rank(ids, x) == |ids| - 1
  {
    var x := Largest(ids);
    assert Before(ids, x) == ids - {x};
    assert Rank(ids, x) == |ids| - 1;
  }

  ghost function Largest(ids: set<nat>): (x: nat)
    requires ids != {}
    ensures x in ids && forall y :: y in ids ==> y <= x
  {
    var z :| z in ids;
    if ids == {z} then z
    else
      assert ids - {z} != {};
      var w := Largest(ids - {z});
      assert forall y :: y in ids ==> y == z || y in ids - {z};
      if z >= w then z else w
  }

  /** Recovery yields a ledger that satisfies the invariant at once. */
  lemma RecoveryKeeps(cfg: Config, l: Ledger, now: int)
    requires Inv(cfg, l)
    ensures Inv(cfg, Recovered(l, now))
  {
    RecoveryRecords(cfg, l, now, Recovered(l, now));
    RecoveryTally(cfg, l, now, Recovered(l, now));
    SettledCarries(l, now);
  }

  lemma RecoveryRecords(cfg: Config, l: Ledger, now: int, l': Ledger)
    requires Inv(cfg, l) && l' == Recovered(l, now)
    ensures RecordsSound(cfg, l')
  {
    assert l'.records.Keys == l.records.Keys;
    forall id | id in l'.records ensures RecordSound(cfg, l', id) { SettledRecord(cfg, l, now, id); }
    forall key | key in l'.idempotency ensures KeySound(l', key) { assert KeySound(l, key); }
    forall i, j | i in l'.records && j in l'.records ensures VersionsApart(l'.records, i, j) { SettledVersions(cfg, l, now, i, j); }
  }

  lemma RecoveryTally(cfg: Config, l: Ledger, now: int, l': Ledger)
    requires Inv(cfg, l) && l' == Recovered(l, now)
    ensures |l'.used| == FIELDS && forall f {:trigger Tallied(cfg, l', f)} :: 0 <= f < FIELDS ==> Tallied(cfg, l', f)
  {
    forall f | 0 <= f < FIELDS ensures Tallied(cfg, l', f) {
      assert Tallied(cfg, l, f);
      LapsedLess(l.records, now, f);
      SettledUsage(l, now, f);
    }
  }

  // ---- Runs ----

  datatype Op =
    | DoReserve(request: Request, id: nat, now: int)
    | DoCommit(id: nat, expected: nat, now: int)
    | DoRelease(id: nat, expected: nat, now: int)
    | DoRestart(now: int)

  /** Whether a snapshot taken now would be recovered. */
  ghost predicate Restartable(cfg: Config, l: Ledger, now: int) { cfg.validAt(now) && Storable(l) && NoneBackdated(l) }

  /** A restart recovers from a snapshot; when that is refused, the records stay as they are. An identifier in use is never drawn. */
  ghost function Step(cfg: Config, l: Ledger, op: Op): Ledger
    requires Wired(l)
  {
    match op
    case DoReserve(q, id, now) => if id in l.records then l else Reserve(cfg, l, q, id, now).0
    case DoCommit(id, expected, now) => Finalize(cfg, l, id, expected, Committed, now).0
    case DoRelease(id, expected, now) => Finalize(cfg, l, id, expected, Released, now).0
    case DoRestart(now) => if Restartable(cfg, l, now) then Recovered(l, now) else l
  }

  lemma StepKeeps(cfg: Config, l: Ledger, op: Op)
    requires Inv(cfg, l)
    ensures Wired(l) && Inv(cfg, Step(cfg, l, op))
  {
    InvWired(cfg, l);
    match op {
      case DoReserve(q, id, now) => if id !in l.records { ReserveKeeps(cfg, l, q, id, now); }
      case DoCommit(id, expected, now) => FinalizeKeeps(cfg, l, id, expected, Committed, now);
      case DoRelease(id, expected, now) => FinalizeKeeps(cfg, l, id, expected, Released, now);
      case DoRestart(now) => RecoveryKeeps(cfg, l, now);
    }
  }

  /** The ledger at the end of a run, whatever its clock reads. */
  ghost function Run(cfg: Config, l: Ledger, ops: seq<Op>): (end: Ledger)
    requires Inv(cfg, l)
    ensures Inv(cfg, end)
    decreases |ops|
  {
    if ops == [] then l
    else
      StepKeeps(cfg, l, ops[0]);
      Run(cfg, Step(cfg, l, ops[0]), ops[1..])
  }

  lemma EmptyInv(cfg: Config)
    ensures Inv(cfg, EMPTY)
  {
    assert forall f :: 0 <= f < FIELDS ==> Weights(EMPTY.records, f) == map[];
  }

  /**
   * Over every run from the empty ledger, whatever the clock does: usage is the sum over records not
   * released and within its ceiling, versions are distinct and never ahead of the ledger.
   */
  lemma LedgerSound(cfg: Config, ops: seq<Op>, f: nat, i: nat, j: nat)
    requires f < FIELDS
    ensures Inv(cfg, EMPTY)
    ensures var l := Run(cfg, EMPTY, ops);
      && |l.used| == FIELDS && l.used[f] == Usage(l.records, f) <= cfg.ceilings[f]
      && (i in l.records ==> 1 <= l.records[i].version <= l.version)
      && (i in l.records && j in l.records && i != j ==> l.records[i].version != l.records[j].version)
  {
    EmptyInv(cfg);
    var l := Run(cfg, EMPTY, ops);
    assert Tallied(cfg, l, f);
    if i in l.records { assert RecordSound(cfg, l, i); }
    if i in l.records && j in l.records { assert VersionsApart(l.records, i, j); }
  }

  /** A committed or released record is never touched again. */
  lemma {:induction false} FinalForever(cfg: Config, l: Ledger, ops: seq<Op>, id: nat)
    requires Inv(cfg, l) && id in l.records && l.records[id].state != Reserved
    ensures id in Run(cfg, l, ops).records && Run(cfg, l, ops).records[id] == l.records[id]
    decreases |ops|
  {
    if ops != [] {
      StepKeeps(cfg, l, ops[0]);
      FinalForever(cfg, Step(cfg, l, ops[0]), ops[1..], id);
    }
  }

  ghost predicate SameOrigin(r: Record, r': Record) {
    r' == r.(version := r'.version, state := r'.state, finalizedAt := r'.finalizedAt)
  }

  lemma StepRemembers(cfg: Config, l: Ledger, op: Op, key: nat)
    requires Inv(cfg, l) && Wired(l) && key in l.idempotency
    ensures var l' := Step(cfg, l, op);
      key in l'.idempotency && l'.idempotency[key] == l.idempotency[key] && l.idempotency[key].1 in l'.records
      && SameOrigin(l.records[l.idempotency[key].1], l'.records[l.idempotency[key].1])
  {
    assert KeySound(l, key);
  }

  /** An idempotency key stays bound to its request and its reservation. */
  lemma {:induction false} KeyForever(cfg: Config, l: Ledger, ops: seq<Op>, key: nat)
    requires Inv(cfg, l) && key in l.idempotency && l.idempotency[key].1 in l.records
    ensures var end := Run(cfg, l, ops);
      key in end.idempotency && end.idempotency[key] == l.idempotency[key] && l.idempotency[key].1 in end.records
      && SameOrigin(l.records[l.idempotency[key].1], end.records[l.idempotency[key].1])
    decreases |ops|
  {
    if ops != [] {
      StepKeeps(cfg, l, ops[0]);
      StepRemembers(cfg, l, ops[0], key);
      KeyForever(cfg, Step(cfg, l, ops[0]), ops[1..], key);
    }
  }

  /**
   * A replay of an accepted request, in any later state and with any expected version, changes
   * nothing and answers with the reservation made for it; another request under the same key is refused.
   */
  lemma ReplayChangesNothing(cfg: Config, l: Ledger, q: Request, id: nat, ops: seq<Op>, now: int,
                             again: Request, drawn: nat, later: int)
    requires Inv(cfg, l) && id !in l.records && Wired(l)
    requires Reserve(cfg, l, q, id, now).1.Ok?
    requires again.key == q.key && RequestContract(again)
    ensures Inv(cfg, Reserve(cfg, l, q, id, now).0)
    ensures var end := Run(cfg, Reserve(cfg, l, q, id, now).0, ops);
      && Wired(end) && Reserve(cfg, end, again, drawn, later).0 == end
      && if FingerprintOf(again) == FingerprintOf(q)
         then Reserve(cfg, end, again, drawn, later).1.Ok?
              && SameOrigin(Reserve(cfg, l, q, id, now).1.value, Reserve(cfg, end, again, drawn, later).1.value)
         else Reserve(cfg, end, again, drawn, later).1 == Err(IdempotencyConflict)
  {
    ReserveKeeps(cfg, l, q, id, now);
    var made := Reserve(cfg, l, q, id, now).0;
    if q.key in l.idempotency { assert KeySound(l, q.key) && RecordSound(cfg, l, l.idempotency[q.key].1); }
    assert q.key in made.idempotency && made.idempotency[q.key].1 in made.records;
    KeyForever(cfg, made, ops, q.key);
    InvWired(cfg, Run(cfg, made, ops));
  }

  /** Releasing a reservation after the clock went back past its creation makes every later recovery fail. */
  lemma SetBackReleaseBlocksRecovery(cfg: Config, l: Ledger, id: nat, now: int, ops: seq<Op>)
    requires Inv(cfg, l) && Wired(l) && id in l.records && l.records[id].state == Reserved && cfg.validAt(now) && now < l.records[id].createdAt
    ensures var (l', r) := Finalize(cfg, l, id, l.version, Released, now);
      r.Ok? && Inv(cfg, l') && !NoneBackdated(Run(cfg, l', ops))
  {
    var l' := Finalize(cfg, l, id, l.version, Released, now).0;
    FinalizeKeeps(cfg, l, id, l.version, Released, now);
    FinalForever(cfg, l', ops, id);
    assert Backdated(Run(cfg, l', ops).records[id]);
  }

  // ---- Runs whose clock does not go back ----

  ghost predicate Chronological(ops: seq<Op>, clock: int) {
    ops == [] || (clock <= ops[0].now && Chronological(ops[1..], ops[0].now))
  }

  lemma StepDates(cfg: Config, l: Ledger, op: Op, clock: int)
    requires Inv(cfg, l) && Wired(l) && Dated(l, clock) && clock <= op.now
    ensures Dated(Step(cfg, l, op), op.now)
  {
    match op {
      case DoReserve(q, id, now) => if id !in l.records { ReserveDates(cfg, l, q, id, clock, now); }
      case DoCommit(id, expected, now) => FinalizeDates(cfg, l, id, expected, Committed, clock, now);
      case DoRelease(id, expected, now) => FinalizeDates(cfg, l, id, expected, Released, clock, now);
      case DoRestart(now) =>
        forall id | id in l.records ensures l.records[id].createdAt < l.records[id].expiresAt { assert RecordSound(cfg, l, id); }
    }
  }

  /** Over a run whose clock does not go back no record is backdated, so restarts fail only for validity or the version range. */
  lemma {:induction false} NeverBackdated(cfg: Config, l: Ledger, ops: seq<Op>, clock: int)
    requires Inv(cfg, l) && Dated(l, clock) && Chronological(ops, clock)
    ensures NoneBackdated(Run(cfg, l, ops))
    decreases |ops|
  {
    if ops != [] {
      StepKeeps(cfg, l, ops[0]);
      StepDates(cfg, l, ops[0], clock);
      NeverBackdated(cfg, Step(cfg, l, ops[0]), ops[1..], ops[0].now);
    }
  }
}
