/** Recovery of the ledger from its records, in any order. */
module AiBudgetRecovery {
  import opened Common
  import opened AiBudget

  // ---- What recovery yields ----

  /** The records by identifier; a later one replaces an earlier one. */
  function ById(recs: seq<Record>): map<nat, Record> {
    if recs == [] then map[] else ById(recs[..|recs| - 1])[recs[|recs| - 1].id := recs[|recs| - 1]]
  }

  predicate HasExpired(r: Record, now: int) { r.state == Reserved && r.expiresAt <= now }

  function Expired(base: map<nat, Record>, now: int): set<nat> { set id | id in base && HasExpired(base[id], now) }

  function Before(ids: set<nat>, id: nat): set<nat> { set x | x in ids && x < id }

  function Rank(ids: set<nat>, id: nat): nat { |Before(ids, id)| }

  /** Expired reservations counted as released. */
  function Lapsed(base: map<nat, Record>, now: int): map<nat, Record> {
    map id | id in base :: if HasExpired(base[id], now) then base[id].(state := Released) else base[id]
  }

  ghost predicate IsTop(records: map<nat, Record>, v: nat) {
    Carried(records, v) && forall id :: id in records ==> records[id].version <= v
  }

  function Lapse(r: Record, version: nat, now: int): Record {
    r.(version := version, state := Released, finalizedAt := Some(now))
  }

  /** Records after recovery: expired ones are released at the versions following `top`, in identifier order. */
  function Settle(base: map<nat, Record>, expired: set<nat>, done: set<nat>, top: nat, now: int): map<nat, Record> {
    map id | id in base :: if id in done then Lapse(base[id], top + 1 + Rank(expired, id), now) else base[id]
  }

  ghost predicate Indexed(base: map<nat, Record>, idempotency: map<nat, (Fingerprint, nat)>) {
    && (forall id :: id in base ==> base[id].key in idempotency && idempotency[base[id].key] == (base[id].fingerprint, id))
    && (forall key :: key in idempotency ==> idempotency[key].1 in base && base[idempotency[key].1].key == key)
  }

  ghost predicate RecoveredFrom(base: map<nat, Record>, now: int, top: nat, l: Ledger) {
    && IsTop(base, top) && l.version == top + |Expired(base, now)|
    && l.records == Settle(base, Expired(base, now), Expired(base, now), top, now)
    && Indexed(base, l.idempotency)
    && |l.used| == FIELDS && forall f :: 0 <= f < FIELDS ==> l.used[f] == Usage(Lapsed(base, now), f)
  }

  // ---- When recovery succeeds ----

  ghost predicate Acceptable(cfg: Config, r: Record) {
    RecordContract(r) && r.reference == cfg.reference && Lifetime(cfg, r)
  }

  predicate Clash(r: Record, s: Record) { r.id == s.id || r.key == s.key || r.version == s.version }

  ghost predicate Distinct(recs: seq<Record>) {
    forall i, j {:trigger Clash(recs[i], recs[j])} :: 0 <= i < j < |recs| ==> !Clash(recs[i], recs[j])
  }

  ghost predicate Affordable(cfg: Config, base: map<nat, Record>, now: int) {
    forall f :: 0 <= f < FIELDS ==> Usage(Lapsed(base, now), f) <= cfg.ceilings[f]
  }

  ghost predicate Recoverable(cfg: Config, recs: seq<Record>, now: int) {
    && cfg.validAt(now) && (forall i :: 0 <= i < |recs| ==> Acceptable(cfg, recs[i]))
    && Distinct(recs) && Affordable(cfg, ById(recs), now)
  }

  // ---- Lemmas about the pieces ----

  lemma ByIdSnoc(recs: seq<Record>, i: nat)
    requires i < |recs|
    ensures ById(recs[..i + 1]) == ById(recs[..i])[recs[i].id := recs[i]]
  {
    assert recs[..i + 1][..i] == recs[..i];
  }

  ghost predicate Listed(recs: seq<Record>, id: nat, r: Record) { exists j :: 0 <= j < |recs| && recs[j] == r && r.id == id }

  lemma {:induction false} ByIdListed(recs: seq<Record>, id: nat)
    requires id in ById(recs)
    ensures Listed(recs, id, ById(recs)[id])
  {
    var n := |recs| - 1;
    if id == recs[n].id {
      assert recs[n] == ById(recs)[id];
    } else {
      ByIdListed(recs[..n], id);
      var j :| 0 <= j < n && recs[..n][j] == ById(recs[..n])[id];
      assert recs[j] == ById(recs)[id];
    }
  }

  lemma {:induction false} ByIdHas(recs: seq<Record>, j: nat)
    requires j < |recs|
    ensures recs[j].id in ById(recs)
    ensures Distinct(recs) ==> ById(recs)[recs[j].id] == recs[j]
  {
    var n := |recs| - 1;
    if j < n {
      ByIdHas(recs[..n], j);
      if Distinct(recs) {
        assert !Clash(recs[j], recs[n]);
        forall a, b | 0 <= a < b < n ensures !Clash(recs[..n][a], recs[..n][b]) { assert !Clash(recs[a], recs[b]); }
      }
    }
  }

  lemma ByIdMembers(recs: seq<Record>)
    ensures forall id :: id in ById(recs) ==> exists j :: 0 <= j < |recs| && recs[j] == ById(recs)[id] && recs[j].id == id
    ensures forall j :: 0 <= j < |recs| ==> recs[j].id in ById(recs)
    ensures Distinct(recs) ==> forall j :: 0 <= j < |recs| ==> ById(recs)[recs[j].id] == recs[j]
  {
    forall id | id in ById(recs)
      ensures exists j :: 0 <= j < |recs| && recs[j] == ById(recs)[id] && recs[j].id == id
    {
      ByIdListed(recs, id);
    }
    forall j | 0 <= j < |recs|
      ensures recs[j].id in ById(recs) && (Distinct(recs) ==> ById(recs)[recs[j].id] == recs[j])
    {
      ByIdHas(recs, j);
    }
  }

  lemma LapsedPut(base: map<nat, Record>, id: nat, r: Record, now: int, f: nat)
    requires f < FIELDS && id !in base
    ensures Usage(Lapsed(base[id := r], now), f) == Usage(Lapsed(base, now), f) + if HasExpired(r, now) then 0 else Weight(r, f)
  {
    var r' := if HasExpired(r, now) then r.(state := Released) else r;
    assert Lapsed(base[id := r], now) == Lapsed(base, now)[id := r'];
    UsagePut(Lapsed(base, now), id, r', f);
  }

  /** Usage only grows while distinct records are loaded. */
  lemma {:induction false} PrefixUsage(recs: seq<Record>, i: nat, now: int, f: nat)
    requires i <= |recs| && f < FIELDS && Distinct(recs)
    ensures Usage(Lapsed(ById(recs[..i]), now), f) <= Usage(Lapsed(ById(recs), now), f)
    decreases |recs| - i
  {
    if i == |recs| {
      assert recs[..i] == recs;
    } else {
      ByIdMembers(recs[..i]);
      assert recs[i].id !in ById(recs[..i]) by {
        forall j | 0 <= j < i ensures recs[..i][j].id != recs[i].id { assert !Clash(recs[j], recs[i]); }
      }
      ByIdSnoc(recs, i);
      LapsedPut(ById(recs[..i]), recs[i].id, recs[i], now, f);
      PrefixUsage(recs, i + 1, now, f);
    }
  }

  lemma PrefixUnaffordable(cfg: Config, recs: seq<Record>, i: nat, now: int, f: nat)
    requires i <= |recs| && f < FIELDS && Usage(Lapsed(ById(recs[..i]), now), f) > cfg.ceilings[f]
    ensures !Recoverable(cfg, recs, now)
  {
    if Distinct(recs) { PrefixUsage(recs, i, now, f); }
  }

  predicate IsSmallest(x: nat, ids: set<nat>) { x in ids && forall y :: y in ids ==> x <= y }

  lemma {:induction false} SmallestExists(ids: set<nat>)
    requires ids != {}
    ensures exists x :: IsSmallest(x, ids)
  {
    var x :| x in ids;
    var rest := ids - {x};
    if rest == {} {
      assert ids == {x};
      assert IsSmallest(x, ids);
    } else {
      SmallestExists(rest);
      var z :| IsSmallest(z, rest);
      var least := if x <= z then x else z;
      forall y | y in ids ensures least <= y { assert y == x || y in rest; }
      assert IsSmallest(least, ids);
    }
  }

  method Smallest(ids: set<nat>) returns (x: nat)
    requires ids != {}
    ensures IsSmallest(x, ids)
  {
    SmallestExists(ids);
    x :| x in ids && IsSmallest(x, ids);
  }

  // ---- The loops ----

  /** What the first loop has built from the records it has read. */
  ghost predicate Loaded(cfg: Config, recs: seq<Record>, now: int, l: Ledger, seen: set<nat>, expired: set<nat>) {
    && (forall j :: 0 <= j < |recs| ==> Acceptable(cfg, recs[j])) && Distinct(recs)
    && l.records == ById(recs) && Indexed(l.records, l.idempotency) && IsTop(l.records, l.version)
    && seen == (set j | 0 <= j < |recs| :: recs[j].version) && expired == Expired(l.records, now)
    && |l.used| == FIELDS && forall f :: 0 <= f < FIELDS ==> l.used[f] == Usage(Lapsed(l.records, now), f) <= cfg.ceilings[f]
  }

  /** The record clashes with none of those already loaded. */
  predicate NoClash(l: Ledger, seen: set<nat>, r: Record) {
    r.id !in l.records && r.key !in l.idempotency && r.version !in seen
  }

  lemma ClashSeen(cfg: Config, recs: seq<Record>, r: Record, now: int, l: Ledger, seen: set<nat>, expired: set<nat>)
    requires Loaded(cfg, recs, now, l, seen, expired) && !NoClash(l, seen, r)
    ensures exists j :: 0 <= j < |recs| && Clash(recs[j], r)
  {
    if r.version in seen {
      var j :| 0 <= j < |recs| && recs[j].version == r.version;
      assert Clash(recs[j], r);
    } else {
      var id := if r.id in l.records then r.id else l.idempotency[r.key].1;
      ByIdListed(recs, id);
      var j :| 0 <= j < |recs| && recs[j] == l.records[id] && recs[j].id == id;
      assert Clash(recs[j], r);
    }
  }

  lemma ClashFound(cfg: Config, recs: seq<Record>, r: Record, now: int, l: Ledger, seen: set<nat>, expired: set<nat>)
    requires Loaded(cfg, recs, now, l, seen, expired)
    ensures NoClash(l, seen, r) <==> forall j :: 0 <= j < |recs| ==> !Clash(recs[j], r)
  {
    if !NoClash(l, seen, r) {
      ClashSeen(cfg, recs, r, now, l, seen, expired);
    } else {
      forall j | 0 <= j < |recs|
        ensures !Clash(recs[j], r)
      {
        ByIdHas(recs, j);
        assert recs[j].version in seen;
      }
    }
  }

  function Counted(r: Record, now: int): Amounts {
    if r.state != Released && !HasExpired(r, now) then r.amounts else [0, 0, 0, 0, 0]
  }

  function LoadOne(l: Ledger, r: Record, now: int): Ledger
    requires |l.used| == FIELDS
  {
    Ledger(Max(l.version, r.version), l.records[r.id := r], l.idempotency[r.key := (r.fingerprint, r.id)], Plus(l.used, Counted(r, now)))
  }

  lemma LoadKeeps(cfg: Config, recs: seq<Record>, r: Record, now: int, l: Ledger, seen: set<nat>, expired: set<nat>)
    requires Loaded(cfg, recs, now, l, seen, expired) && Acceptable(cfg, r) && NoClash(l, seen, r)
    requires forall f :: 0 <= f < FIELDS ==> LoadOne(l, r, now).used[f] <= cfg.ceilings[f]
    ensures Loaded(cfg, recs + [r], now, LoadOne(l, r, now), seen + {r.version}, if HasExpired(r, now) then expired + {r.id} else expired)
  {
    var all := recs + [r];
    ClashFound(cfg, recs, r, now, l, seen, expired);
    LoadDistinct(recs, r);
    LoadIndex(l, r);
    LoadTop(l, r);
    LoadSeen(recs, r, seen);
    LoadUsed(l, r, now);
    assert all[..|recs|] == recs;
    assert Expired(l.records[r.id := r], now) == if HasExpired(r, now) then expired + {r.id} else expired;
  }

  lemma LoadDistinct(recs: seq<Record>, r: Record)
    requires Distinct(recs) && forall j :: 0 <= j < |recs| ==> !Clash(recs[j], r)
    ensures Distinct(recs + [r])
  {
    var all := recs + [r];
    forall i, j | 0 <= i < j < |all| ensures !Clash(all[i], all[j]) {
      if j < |recs| { assert !Clash(recs[i], recs[j]); }
    }
  }

  lemma LoadUsed(l: Ledger, r: Record, now: int)
    requires |l.used| == FIELDS && r.id !in l.records
    requires forall f :: 0 <= f < FIELDS ==> l.used[f] == Usage(Lapsed(l.records, now), f)
    ensures forall f :: 0 <= f < FIELDS ==> LoadOne(l, r, now).used[f] == Usage(Lapsed(l.records[r.id := r], now), f)
  {
    forall f | 0 <= f < FIELDS
      ensures LoadOne(l, r, now).used[f] == Usage(Lapsed(l.records[r.id := r], now), f)
    {
      LapsedPut(l.records, r.id, r, now, f);
    }
  }

  lemma LoadSeen(recs: seq<Record>, r: Record, seen: set<nat>)
    requires seen == set j | 0 <= j < |recs| :: recs[j].version
    ensures seen + {r.version} == set j | 0 <= j < |recs + [r]| :: (recs + [r])[j].version
  {
    var all := recs + [r];
    assert forall j :: 0 <= j < |recs| ==> all[j] == recs[j];
    assert all[|recs|] == r;
    forall v | v in seen ensures v in set j | 0 <= j < |all| :: all[j].version {
      var j :| 0 <= j < |recs| && recs[j].version == v;
      assert all[j].version == v;
    }
  }

  lemma LoadIndex(l: Ledger, r: Record)
    requires Indexed(l.records, l.idempotency) && r.id !in l.records && r.key !in l.idempotency
    ensures Indexed(l.records[r.id := r], l.idempotency[r.key := (r.fingerprint, r.id)])
  {
  }

  lemma LoadTop(l: Ledger, r: Record)
    requires IsTop(l.records, l.version) && r.id !in l.records
    ensures IsTop(l.records[r.id := r], Max(l.version, r.version))
  {
    var records := l.records[r.id := r];
    if r.version >= l.version { assert records[r.id].version == r.version; }
    else {
      var id :| id in l.records && l.records[id].version == l.version;
      assert records[id].version == l.version;
    }
  }

  /** Adds field by field, and stops at the first ceiling passed. */
  method AddAmounts(used: seq<int>, a: Amounts, ceilings: Amounts) returns (r: Option<seq<int>>)
    requires |used| == FIELDS
    ensures r.Some? <==> Fits(used, a, ceilings)
    ensures r.Some? ==> r.value == Plus(used, a)
  {
    var sum := used;
    for f := 0 to FIELDS
      invariant |sum| == FIELDS
      invariant forall i :: 0 <= i < f ==> sum[i] == used[i] + a[i] <= ceilings[i]
      invariant forall i :: f <= i < FIELDS ==> sum[i] == used[i]
    {
      sum := sum[f := sum[f] + a[f]];
      if sum[f] > ceilings[f] { return None; }
    }
    return Some(sum);
  }

  lemma CountedPlus(l: Ledger, r: Record, now: int)
    requires |l.used| == FIELDS && (r.state == Released || HasExpired(r, now))
    ensures LoadOne(l, r, now).used == l.used
  {
  }

  lemma UnaffordableFound(cfg: Config, recs: seq<Record>, i: nat, now: int, l: Ledger)
    requires i < |recs| && |l.used| == FIELDS && l.records == ById(recs[..i]) && recs[i].id !in l.records
    requires forall f :: 0 <= f < FIELDS ==> l.used[f] == Usage(Lapsed(l.records, now), f)
    requires !Fits(l.used, Counted(recs[i], now), cfg.ceilings)
    ensures !Recoverable(cfg, recs, now)
  {
    var f :| 0 <= f < FIELDS && l.used[f] + Counted(recs[i], now)[f] > cfg.ceilings[f];
    LoadUsed(l, recs[i], now);
    ByIdSnoc(recs, i);
    assert LoadOne(l, recs[i], now).used[f] > cfg.ceilings[f];
    PrefixUnaffordable(cfg, recs, i + 1, now, f);
  }

  /** The first loop: checks each record, indexes it and counts it unless released or expired. */
  method Load(cfg: Config, recs: seq<Record>, now: int) returns (r: Result<Ledger, Code>, expired: set<nat>)
    requires cfg.validAt(now)
    ensures r.Ok? <==> Recoverable(cfg, recs, now)
    ensures r.Ok? ==> exists seen :: Loaded(cfg, recs, now, r.value, seen, expired)
  {
    var l, seen := EMPTY, {};
    expired := {};
    EmptyLoaded(cfg, now);
    assert recs[..0] == [];
    for i := 0 to |recs|
      invariant Loaded(cfg, recs[..i], now, l, seen, expired)
    {
      var record := recs[i];
      assert recs[..i + 1] == recs[..i] + [record];
      ClashFound(cfg, recs[..i], record, now, l, seen, expired);
      if !RecordContract(record) { r := Err(RecoveryInvalid); return; }
      if record.reference != cfg.reference { r := Err(RecoveryMismatch); return; }
      if !Lifetime(cfg, record) { r := Err(RecoveryInvalid); return; }
      if record.id in l.records || record.key in l.idempotency || record.version in seen {
        ClashRefused(cfg, recs, i, now);
        r := Err(RecoveryAmbiguous);
        return;
      }
      var used := l.used;
      if record.state != Released && !HasExpired(record, now) {
        var sum := AddAmounts(l.used, record.amounts, cfg.ceilings);
        if sum.None? {
          UnaffordableFound(cfg, recs, i, now, l);
          r := Err(RecoveryExceeded);
          return;
        }
        used := sum.value;
      } else {
        CountedPlus(l, record, now);
      }
      LoadKeeps(cfg, recs[..i], record, now, l, seen, expired);
      l := Ledger(Max(l.version, record.version), l.records[record.id := record],
                  l.idempotency[record.key := (record.fingerprint, record.id)], used);
      seen := seen + {record.version};
      if HasExpired(record, now) { expired := expired + {record.id}; }
    }
    assert recs[..|recs|] == recs;
    r := Ok(l);
  }

  lemma EmptyLoaded(cfg: Config, now: int)
    ensures Loaded(cfg, [], now, EMPTY, {}, {})
  {
    assert forall f :: 0 <= f < FIELDS ==> Weights(Lapsed(map[], now), f) == map[];
  }

  lemma ClashRefused(cfg: Config, recs: seq<Record>, i: nat, now: int)
    requires i < |recs| && exists j :: 0 <= j < i && Clash(recs[..i][j], recs[i])
    ensures !Recoverable(cfg, recs, now)
  {
    var j :| 0 <= j < i && Clash(recs[..i][j], recs[i]);
    assert Clash(recs[j], recs[i]);
  }

  /** What has been released so far precedes what is left. */
  ghost predicate Below(done: set<nat>, todo: set<nat>, expired: set<nat>) {
    done + todo == expired && done !! todo && forall x, y :: x in done && y in todo ==> x < y
  }

  lemma BelowStep(done: set<nat>, todo: set<nat>, expired: set<nat>, id: nat)
    requires Below(done, todo, expired) && IsSmallest(id, todo)
    ensures Below(done + {id}, todo - {id}, expired) && Before(expired, id) == done && id in expired && id !in done
  {
    forall x | x in expired ensures x < id <==> x in done {}
  }

  lemma SettleStep(base: map<nat, Record>, expired: set<nat>, done: set<nat>, id: nat, top: nat, now: int)
    requires id in base && id !in done && Before(expired, id) == done
    ensures Settle(base, expired, done + {id}, top, now) == Settle(base, expired, done, top, now)[id := Lapse(base[id], top + |done| + 1, now)]
  {
  }

  /** Where the second loop stands. */
  ghost predicate Progress(base: Ledger, l: Ledger, expired: set<nat>, done: set<nat>, todo: set<nat>, now: int) {
    && expired <= base.records.Keys && Below(done, todo, expired)
    && l == base.(version := base.version + |done|, records := Settle(base.records, expired, done, base.version, now))
  }

  lemma ProgressStart(base: Ledger, expired: set<nat>, now: int)
    requires expired <= base.records.Keys
    ensures Progress(base, base, expired, {}, expired, now)
  {
  }

  /** The ledger after one more release. */
  function ReleasedNext(l: Ledger, id: nat, now: int): Ledger
    requires id in l.records
  {
    l.(version := l.version + 1, records := l.records[id := Lapse(l.records[id], l.version + 1, now)])
  }

  lemma ProgressStep(base: Ledger, l: Ledger, expired: set<nat>, done: set<nat>, todo: set<nat>, id: nat, now: int)
    requires Progress(base, l, expired, done, todo, now) && IsSmallest(id, todo)
    ensures id in l.records && Progress(base, ReleasedNext(l, id, now), expired, done + {id}, todo - {id}, now)
  {
    BelowStep(done, todo, expired, id);
    ProgressTables(base, l, expired, done, id, now);
  }

  lemma ProgressTables(base: Ledger, l: Ledger, expired: set<nat>, done: set<nat>, id: nat, now: int)
    requires id in base.records && id !in done && Before(expired, id) == done
    requires l == base.(version := base.version + |done|, records := Settle(base.records, expired, done, base.version, now))
    ensures id in l.records
    ensures ReleasedNext(l, id, now) ==
      base.(version := base.version + |done + {id}|, records := Settle(base.records, expired, done + {id}, base.version, now))
  {
    SettleStep(base.records, expired, done, id, base.version, now);
    StillUnsettled(base.records, expired, done, id, base.version, now);
    assert |done + {id}| == |done| + 1;
  }

  lemma StillUnsettled(base: map<nat, Record>, expired: set<nat>, done: set<nat>, id: nat, top: nat, now: int)
    requires id in base && id !in done
    ensures id in Settle(base, expired, done, top, now) && Settle(base, expired, done, top, now)[id] == base[id]
  {
  }

  lemma ProgressEnd(base: Ledger, l: Ledger, expired: set<nat>, done: set<nat>, now: int)
    requires Progress(base, l, expired, done, {}, now)
    ensures l == base.(version := base.version + |expired|, records := Settle(base.records, expired, expired, base.version, now))
  {
    assert done == expired;
  }

  /** The second loop: expired reservations are released in identifier order, each at a new version. */
  method ReleaseExpired(base: Ledger, expired: set<nat>, now: int) returns (l: Ledger)
    requires expired <= base.records.Keys
    ensures l == base.(version := base.version + |expired|, records := Settle(base.records, expired, expired, base.version, now))
  {
    var todo := expired;
    ghost var done: set<nat> := {};
    l := base;
    ProgressStart(base, expired, now);
    while todo != {}
      invariant Progress(base, l, expired, done, todo, now)
      decreases todo
    {
      var id := Smallest(todo);
      ProgressStep(base, l, expired, done, todo, id, now);
      l := ReleasedNext(l, id, now);
      todo, done := todo - {id}, done + {id};
    }
    ProgressEnd(base, l, expired, done, now);
  }

  /** Recovery succeeds exactly when the records are acceptable, distinct and affordable, in any order. */
  method Recover(cfg: Config, recs: seq<Record>, now: int) returns (r: Result<Ledger, Code>)
    ensures r.Ok? <==> Recoverable(cfg, recs, now)
    ensures r.Ok? ==> exists top :: RecoveredFrom(ById(recs), now, top, r.value)
  {
    if !cfg.validAt(now) { return Err(ConfigurationInvalid); }
    var loaded, expired := Load(cfg, recs, now);
    if loaded.Err? { return Err(loaded.error); }
    var l := ReleaseExpired(loaded.value, expired, now);
    assert RecoveredFrom(ById(recs), now, loaded.value.version, l);
    return Ok(l);
  }
}
