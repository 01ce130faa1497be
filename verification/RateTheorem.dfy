/**
 * The token bucket bound over whole runs: while a bucket belongs to one policy, the tokens taken
 * minus the tokens handed back never exceed the burst plus the refill for the time that passed.
 */
module RateTheorem {
  import opened Common
  import opened AuthorityModel
  import opened GatewayInvariant
  import opened AuthorityInvariant
  import opened AuthorityRuns
  import opened AuthorityTheorems
  import opened TokenLevels
  import opened ResponseAccounting

  /** Tokens of a bucket that policy `p` has taken and not handed back. */
  ghost function Taken(g: Gateway, p: nat, id: BucketId): set<nat> {
    set k | k in g.rates && Holds(g.rates[k], p, id)
  }

  ghost predicate Holds(hold: RateHold, p: nat, id: BucketId) { hold.policy == p && hold.status != Released && Touches(hold, id) }

  /** The bucket is there and labelled with the policy. */
  ghost predicate Labelled(g: Gateway, id: BucketId, p: nat) {
    id in g.buckets && g.buckets[id].policy == p
  }

  // ---- How a bucket changes ----

  /** A bucket and the tokens out of it: nothing happens, one token is taken, or some are handed back. */
  datatype Change = Same | Reserve(now: int) | Release(n: nat, now: int)

  /** One token is taken after refilling up to `now`. */
  ghost predicate Debited(b: Bucket, b': Bucket, now: int) {
    && now >= b.updatedAt
    && b' == b.(tokens := MinReal(b.capacity as real, b.tokens + Refill(now - b.updatedAt, b.rate)) - 1.0, updatedAt := now)
  }

  /** The change turns bucket `b` with `n` tokens out into `b'` with `n'` out. */
  ghost predicate Evolves(b: Bucket, n: int, b': Bucket, n': int, c: Change) {
    match c
    case Same => b' == b && n' == n
    case Reserve(now) => Debited(b, b', now) && n' == n + 1
    case Release(m, now) => b' == Refund(b, m, now) && n' == n - m
  }

  /**
   * On the bucket's own clock, which never goes back whatever the service's clock does, tokens out
   * and tokens in together rise at most by the refill.
   */
  lemma EvolvesOwn(b: Bucket, n: int, b': Bucket, n': int, c: Change)
    requires BucketBounded(b) && Evolves(b, n, b', n', c)
    ensures b.updatedAt <= b'.updatedAt && b'.rate == b.rate && b'.capacity == b.capacity
    ensures n' as real + b'.tokens <= n as real + b.tokens + Refill(b'.updatedAt - b.updatedAt, b.rate)
  {
    SecondsScale(0, b'.updatedAt - b.updatedAt, b.rate);
  }

  /** What may still be taken by reservations made between `from` and `to`. */
  ghost function Room(b: Bucket, from: int, to: int): real {
    var at := Max(from, b.updatedAt);
    if at > to then 0.0 else Level(b, at) + Refill(to - at, b.rate)
  }

  lemma RoomBounds(b: Bucket, from: int, to: int)
    requires BucketBounded(b) && from <= to
    ensures 0.0 <= Room(b, from, to) <= b.capacity as real + Refill(to - from, b.rate)
  {
    var at := Max(from, b.updatedAt);
    LevelBounds(b, at);
    SecondsScale(0, to - from, b.rate);
    if at <= to {
      SecondsScale(0, to - at, b.rate);
      SecondsScale(to - at, to - from, b.rate);
    }
  }

  /** A release at any time leaves the level at a later time raised by no more than the tokens handed back. */
  lemma ReleaseLevel(b: Bucket, n: nat, now: int, t: int)
    requires BucketBounded(b) && t >= Max(now, b.updatedAt)
    ensures Level(Refund(b, n, now), t) <= Level(b, t) + n as real
  {
    if n > 0 {
      var at := Max(now, b.updatedAt);
      SecondsAdd(at - b.updatedAt, t - at, b.rate);
      assert at - b.updatedAt + (t - at) == t - b.updatedAt;
    }
  }

  lemma ReserveRoom(b: Bucket, b': Bucket, now: int, from: int, to: int)
    requires BucketBounded(b) && Debited(b, b', now) && from <= now <= to
    ensures Room(b', from, to) <= Room(b, from, to) - 1.0
  {
    var at := Max(from, b.updatedAt);
    assert Level(b', now) == Level(b, now) - 1.0;
    LevelRises(b, at, now);
    SecondsAdd(now - at, to - now, b.rate);
    assert now - at + (to - now) == to - at;
  }

  lemma ReleaseRoom(b: Bucket, n: nat, now: int, from: int, to: int)
    requires BucketBounded(b) && from <= to
    ensures Room(Refund(b, n, now), from, to) <= Room(b, from, to) + n as real
  {
    if n > 0 {
      var b' := Refund(b, n, now);
      var at, at' := Max(from, b.updatedAt), Max(from, b'.updatedAt);
      RoomBounds(b, from, to);
      if at' <= to {
        ReleaseLevel(b, n, now, at');
        LevelRises(b, at, at');
        SecondsAdd(at' - at, to - at', b.rate);
        assert at' - at + (to - at') == to - at;
      }
    }
  }

  /** Reservations read the clock between `from` and `to`; releases read whatever they read. */
  lemma EvolvesWithin(b: Bucket, n: int, b': Bucket, n': int, c: Change, from: int, to: int)
    requires BucketBounded(b) && Evolves(b, n, b', n', c) && from <= to && (c.Reserve? ==> from <= c.now <= to)
    ensures n' as real + Room(b', from, to) <= n as real + Room(b, from, to)
  {
    match c {
      case Same =>
      case Reserve(now) => ReserveRoom(b, b', now, from, to);
      case Release(m, now) => ReleaseRoom(b, m, now, from, to);
    }
  }

  // ---- Each kind of operation ----

  /** The bucket and its tokens out change this way between two states of the tables. */
  ghost predicate Changes(g: Gateway, g': Gateway, id: BucketId, p: nat, c: Change)
    requires id in g.buckets && id in g'.buckets
  {
    Evolves(g.buckets[id], |Taken(g, p, id)|, g'.buckets[id], |Taken(g', p, id)|, c)
  }

  lemma ReservedBucket(buckets: map<BucketId, Bucket>, after: map<BucketId, Bucket>, id: BucketId, p: nat, rate: real, capacity: int, now: int)
    requires ReserveBucket(buckets, id, p, rate, capacity, now) == Ok(after)
    ensures forall other :: other in buckets && other != id ==> other in after && after[other] == buckets[other]
    ensures id in after && after[id].policy == p
    ensures id in buckets && buckets[id].policy == p && buckets[id].rate == rate && buckets[id].capacity == capacity ==>
      Debited(buckets[id], after[id], now)
  {
  }

  /** Both buckets of a request are debited, under the policy they then belong to; no other one is. */
  lemma PreparedBucket(a: Authority, g: Gateway, after: map<BucketId, Bucket>, e: nat, p: nat, host: string, now: int, id: BucketId)
    requires p in a.policies && TakeTokens(g.buckets, e, p, host, a.policies[p].budgets, now) == Ok(after)
    requires id in g.buckets && LabelAgrees(a, g, id)
    ensures id in after
    ensures var touched := id.engagement == e && (id.key == AllHosts || id.key == Host(host));
      && (touched ==> after[id].policy == p && (g.buckets[id].policy == p ==> Debited(g.buckets[id], after[id], now)))
      && (!touched ==> after[id] == g.buckets[id])
  {
    var b := a.policies[p].budgets;
    var all, one := BucketId(e, AllHosts), BucketId(e, Host(host));
    var debited := ReserveBucket(g.buckets, all, p, b.globalRate, b.burst, now).value;
    ReservedBucket(g.buckets, debited, all, p, b.globalRate, b.burst, now);
    ReservedBucket(debited, after, one, p, b.hostRate, b.burst, now);
  }

  lemma PreparedTaken(g: Gateway, g': Gateway, k: nat, hold: RateHold, id: BucketId, q: nat)
    requires k !in g.rates && g'.rates == g.rates[k := hold] && hold.status == Held
    ensures |Taken(g', q, id)| == |Taken(g, q, id)| + if hold.policy == q && Touches(hold, id) then 1 else 0
  {
    if hold.policy == q && Touches(hold, id) {
      assert Taken(g', q, id) == Taken(g, q, id) + {k};
    } else {
      assert Taken(g', q, id) == Taken(g, q, id);
    }
  }

  lemma PreparedChanges(a: Authority, g: Gateway, g': Gateway, k: nat, e: nat, p: nat, host: string, now: int, id: BucketId, q: nat)
    requires p in a.policies && TakeTokens(g.buckets, e, p, host, a.policies[p].budgets, now) == Ok(g'.buckets)
    requires k !in g.rates && g'.rates == g.rates[k := RateHold(e, p, host, Held)]
    requires Labelled(g, id, q) && Labelled(g', id, q) && LabelAgrees(a, g, id)
    ensures Changes(g, g', id, q, if Touches(RateHold(e, p, host, Held), id) then Reserve(now) else Same)
  {
    var hold := RateHold(e, p, host, Held);
    PreparedBucket(a, g, g'.buckets, e, p, host, now, id);
    PreparedTaken(g, g', k, hold, id, q);
  }

  /** Tokens that go back into the bucket when the holds of `keys` are released. */
  ghost function Returned(g: Gateway, keys: set<nat>, id: BucketId): set<nat> {
    set k | k in keys && k in g.rates && Touches(g.rates[k], id)
  }

  ghost predicate HoldsReleased(g: Gateway, g': Gateway, keys: set<nat>) {
    && keys <= g.rates.Keys && g'.rates.Keys == g.rates.Keys
    && (forall k :: k in keys ==> g.rates[k].status == Held && BucketsMatch(g.buckets, g.rates[k]))
    && (forall k :: k in g.rates ==> g'.rates[k] == if k in keys then g.rates[k].(status := Released) else g.rates[k])
  }

  lemma ReleasedTaken(g: Gateway, g': Gateway, keys: set<nat>, id: BucketId, q: nat)
    requires HoldsReleased(g, g', keys) && Labelled(g, id, q)
    ensures |Taken(g', q, id)| == |Taken(g, q, id)| - |Returned(g, keys, id)|
  {
    var back := Returned(g, keys, id);
    forall k | k in back
      ensures k in Taken(g, q, id)
    {
      assert BucketMatches(g.buckets, g.rates[k], id.key);
    }
    assert Taken(g', q, id) == Taken(g, q, id) - back;
    assert back <= Taken(g, q, id);
  }

  lemma ReleasedChanges(g: Gateway, g': Gateway, keys: set<nat>, id: BucketId, q: nat, now: int)
    requires HoldsReleased(g, g', keys) && Labelled(g, id, q)
    requires id in g'.buckets && g'.buckets[id] == Refund(g.buckets[id], |Returned(g, keys, id)|, now)
    ensures Changes(g, g', id, q, Release(|Returned(g, keys, id)|, now))
  {
    ReleasedTaken(g, g', keys, id, q);
  }

  lemma SweptReleases(g: Gateway, scope: Option<nat>, now: int)
    requires GatewayInv(g)
    ensures HoldsReleased(g, Swept(g, scope, now), Refundable(g, scope))
  {
    var keys := Refundable(g, scope);
    forall k | k in keys
      ensures BucketsMatch(g.buckets, g.rates[k])
    {
      assert Backed(g, k);
    }
  }

  lemma SweptBucket(g: Gateway, scope: Option<nat>, now: int, id: BucketId)
    requires Shaped(g) && id in g.buckets
    ensures id in Swept(g, scope, now).buckets
    ensures Swept(g, scope, now).buckets[id] == Refund(g.buckets[id], |Returned(g, Refundable(g, scope), id)|, now)
  {
    var keys := Refundable(g, scope);
    assert RefundsInto(g, keys, id) == Returned(g, keys, id);
  }

  lemma SweptChanges(g: Gateway, scope: Option<nat>, now: int, id: BucketId, q: nat)
    requires GatewayInv(g) && Labelled(g, id, q)
    ensures id in Swept(g, scope, now).buckets
    ensures Changes(g, Swept(g, scope, now), id, q, Release(|Returned(g, Refundable(g, scope), id)|, now))
  {
    SweptReleases(g, scope, now);
    SweptBucket(g, scope, now, id);
    ReleasedChanges(g, Swept(g, scope, now), Refundable(g, scope), id, q, now);
  }

  lemma AbortedChanges(g: Gateway, g': Gateway, k: nat, now: int, id: BucketId, q: nat)
    requires AbortedTables(g, g', k, now) && BucketsMatch(g.buckets, g.rates[k]) && g.rates[k].status == Held && Labelled(g, id, q)
    ensures id in g'.buckets && Changes(g, g', id, q, Release(|Returned(g, {k}, id)|, now))
  {
    assert Returned(g, {k}, id) == if Touches(g.rates[k], id) then {k} else {};
    assert HoldsReleased(g, g', {k});
    ReleasedChanges(g, g', {k}, id, q, now);
  }

  // ---- Every operation ----

  /** When the operation reads the clock to refill or refund a bucket. */
  ghost function Instant(op: Op): Option<int> {
    match op
    case DoPrepareSession(_, _, _, now, _) => Some(now)
    case DoAbortSession(_, now, _) => Some(now)
    case DoActivatePolicy(_, now, _, _) => Some(now)
    case DoRevokePolicy(_, now, _) => Some(now)
    case DoSetGlobalSafety(_, now, _) => Some(now)
    case DoRecoverStartup(now) => Some(now)
    case DoPauseAssessment(_, now, _) => Some(now)
    case _ => None
  }

  /** The hold a preparation records. */
  ghost function HoldOf(a: Authority, g: nat, d: nat): RateHold
    requires g in a.grants && d in a.destinations
  {
    RateHold(a.grants[g].engagement, a.grants[g].policy, a.destinations[d].host, Held)
  }

  /** The operation is an accepted preparation that takes a token of this bucket. */
  ghost predicate Reserves(db: Database, op: Op, id: BucketId)
    requires Referential(db)
  {
    && op.DoPrepareSession? && Step(db, op).Ok?
    && op.grant in db.authority.grants && op.destination in db.authority.destinations
    && Touches(HoldOf(db.authority, op.grant, op.destination), id)
  }

  lemma PrepareOpChanges(db: Database, db': Database, g: nat, d: nat, k: nat, now: int, trusted: bool, id: BucketId, q: nat)
    requires Inv(db) && PrepareSession(db, g, d, k, now, trusted) == Ok(db')
    requires Labelled(db.gateway, id, q) && Labelled(db'.gateway, id, q)
    ensures g in db.authority.grants && d in db.authority.destinations
    ensures Changes(db.gateway, db'.gateway, id, q, if Touches(HoldOf(db.authority, g, d), id) then Reserve(now) else Same)
  {
    PrepareFacts(db, db', g, d, k, now, trusted);
    assert LabelAgrees(db.authority, db.gateway, id);
    var grant := db.authority.grants[g];
    PreparedChanges(db.authority, db.gateway, db'.gateway, k, grant.engagement, grant.policy, db.authority.destinations[d].host, now, id, q);
  }

  lemma AbortOpChanges(db: Database, db': Database, k: nat, now: int, reasonGiven: bool, id: BucketId, q: nat)
    requires Inv(db) && AbortSession(db, k, now, reasonGiven) == Ok(db') && Labelled(db.gateway, id, q)
    ensures id in db'.gateway.buckets && Changes(db.gateway, db'.gateway, id, q, Release(|Returned(db.gateway, {k}, id)|, now))
  {
    LiveSessionCounted(db.gateway, k);
    assert RowConsistent(db.gateway, k);
    AbortFacts(db, db', k, now, reasonGiven);
    AbortedChanges(db.gateway, db'.gateway, k, now, id, q);
  }

  /** The scope an operation sweeps, when it sweeps. */
  ghost function SweepScope(db: Database, op: Op): Option<Option<nat>> {
    match op
    case DoActivatePolicy(p, _, _, _) => if p in db.authority.policies then Some(Some(db.authority.policies[p].engagement)) else None
    case DoRevokePolicy(p, _, _) => if p in db.authority.policies then Some(Some(db.authority.policies[p].engagement)) else None
    case DoPauseAssessment(e, _, _) => Some(Some(e))
    case DoRecoverStartup(_) => Some(None)
    case DoSetGlobalSafety(status, _, _) => if status == GlobalActive then None else Some(None)
    case _ => None
  }

  lemma SweepOps(db: Database, db': Database, op: Op)
    requires Referential(db) && Step(db, op) == Ok(db') && SweepScope(db, op).Some?
    ensures db'.gateway == Swept(db.gateway, SweepScope(db, op).value, Instant(op).value)
  {
    assert Sweep(db.gateway, SweepScope(db, op).value, Instant(op).value).Ok?;
  }

  /** Operations that neither take nor return a token. */
  ghost predicate LeavesRates(db: Database, op: Op) {
    SweepScope(db, op).None? && !op.DoPrepareSession? && !op.DoAbortSession? && !op.DoCommitStart?
  }

  lemma OtherOps(db: Database, db': Database, op: Op)
    requires Referential(db) && Step(db, op) == Ok(db') && LeavesRates(db, op)
    ensures db'.gateway.rates == db.gateway.rates && db'.gateway.buckets == db.gateway.buckets
  {
    match op {
      case DoFinalizeRequest(k, m, claimId, trusted) => FinalizeFacts(db, db', k, m, claimId, trusted);
      case DoClaimFixture(k, claimId, now, contained) => ClaimFacts(db, db', k, claimId, now, contained);
      case _ => AuthorityOnly(db, db', op);
    }
  }

  lemma AuthorityOnly(db: Database, db': Database, op: Op)
    requires Referential(db) && Step(db, op) == Ok(db') && LeavesRates(db, op)
    requires !op.DoFinalizeRequest? && !op.DoClaimFixture?
    ensures db'.gateway == db.gateway
  {
    if op.DoCreateEngagement? || op.DoCompilePolicy? || op.DoEvaluateIntent? { SetupOnly(db, db', op); }
    else if op.DoMintGrant? || op.DoConsumeGrant? { GrantOnly(db, db', op); }
    else if op.DoRecordAttestation? || op.DoAuthorizeDestination? { EvidenceOnly(db, db', op); }
    else if op.DoActivatePolicy? || op.DoRevokePolicy? { UnknownPolicyRefused(db, op); }
    else { SafetyOnly(db, db', op); }
  }

  lemma UnknownPolicyRefused(db: Database, op: Op)
    requires Referential(db) && (op.DoActivatePolicy? || op.DoRevokePolicy?) && SweepScope(db, op).None?
    ensures Step(db, op).Err?
  {
  }

  lemma SetupOnly(db: Database, db': Database, op: Op)
    requires Referential(db) && Step(db, op) == Ok(db') && (op.DoCreateEngagement? || op.DoCompilePolicy? || op.DoEvaluateIntent?)
    ensures db'.gateway == db.gateway
  {
    match op {
      case DoCreateEngagement(e, expiresAt) => assert CreateEngagement(db, e, expiresAt) == Ok(db');
      case DoCompilePolicy(p, row) => assert CompilePolicy(db, p, row) == Ok(db');
      case DoEvaluateIntent(e, d, intent, allowed, trusted) => assert EvaluateIntent(db, e, d, intent, allowed, trusted) == Ok(db');
    }
  }

  lemma GrantOnly(db: Database, db': Database, op: Op)
    requires Referential(db) && Step(db, op) == Ok(db') && (op.DoMintGrant? || op.DoConsumeGrant?)
    ensures db'.gateway == db.gateway
  {
    match op {
      case DoMintGrant(d, g, audience, now, intentExpiresAt, timeoutSeconds, responseBytes, trusted) =>
        assert MintGrant(db, d, g, audience, now, intentExpiresAt, timeoutSeconds, responseBytes, trusted) == Ok(db');
      case DoConsumeGrant(g, audience, now, trusted) => assert ConsumeGrant(db, g, audience, now, trusted) == Ok(db');
    }
  }

  lemma EvidenceOnly(db: Database, db': Database, op: Op)
    requires Referential(db) && Step(db, op) == Ok(db') && (op.DoRecordAttestation? || op.DoAuthorizeDestination?)
    ensures db'.gateway == db.gateway
  {
    match op {
      case DoRecordAttestation(t, e, expiresAt, trusted) => assert RecordAttestation(db, t, e, expiresAt, trusted) == Ok(db');
      case DoAuthorizeDestination(d, g, t, host, allowed, now, trusted) =>
        assert AuthorizeDestination(db, d, g, t, host, allowed, now, trusted) == Ok(db');
    }
  }

  lemma SafetyOnly(db: Database, db': Database, op: Op)
    requires Referential(db) && Step(db, op) == Ok(db') && LeavesRates(db, op)
    requires op.DoSetGlobalSafety? || op.DoResumeAssessment?
    ensures db'.gateway == db.gateway
  {
    match op {
      case DoSetGlobalSafety(status, now, reasonGiven) =>
        assert status == GlobalActive && SetGlobalSafety(db, GlobalActive, now, reasonGiven) == Ok(db');
      case DoResumeAssessment(e, now, trusted, current) => ResumeOnly(db, db', e, now, trusted, current);
    }
  }

  lemma ResumeOnly(db: Database, db': Database, e: nat, now: int, trusted: bool, current: bool)
    requires Referential(db) && ResumeAssessment(db, e, now, trusted, current) == Ok(db')
    ensures db'.gateway == db.gateway
  {
  }

  /** A started request keeps the token it took. */
  lemma CommitOpChanges(db: Database, db': Database, k: nat, now: int, trusted: bool, id: BucketId, q: nat)
    requires Inv(db) && CommitStart(db, k, now, trusted) == Ok(db') && Labelled(db.gateway, id, q)
    ensures id in db'.gateway.buckets && Changes(db.gateway, db'.gateway, id, q, Same)
  {
    CommitFacts(db, db', k, now, trusted);
    assert RowConsistent(db.gateway, k);
    SpentTaken(db.gateway, db'.gateway, k, id, q);
  }

  lemma SpentTaken(g: Gateway, g': Gateway, k: nat, id: BucketId, q: nat)
    requires k in g.rates && g.rates[k].status == Held && g'.rates == g.rates[k := g.rates[k].(status := Spent)]
    ensures Taken(g', q, id) == Taken(g, q, id)
  {
  }

  lemma DirectChanges(db: Database, db': Database, op: Op, id: BucketId, q: nat) returns (c: Change)
    requires Inv(db) && Step(db, op) == Ok(db') && Labelled(db.gateway, id, q) && Labelled(db'.gateway, id, q)
    requires op.DoPrepareSession? || op.DoAbortSession? || op.DoCommitStart?
    ensures Changes(db.gateway, db'.gateway, id, q, c) && (c.Reserve? ==> Reserves(db, op, id) && op.now == c.now)
  {
    match op {
      case DoPrepareSession(g, d, k, now, trusted) =>
        PrepareOpChanges(db, db', g, d, k, now, trusted, id, q);
        c := if Touches(HoldOf(db.authority, g, d), id) then Reserve(now) else Same;
      case DoAbortSession(k, now, reasonGiven) =>
        AbortOpChanges(db, db', k, now, reasonGiven, id, q);
        c := Release(|Returned(db.gateway, {k}, id)|, now);
      case DoCommitStart(k, now, trusted) =>
        CommitOpChanges(db, db', k, now, trusted, id, q);
        c := Same;
    }
  }

  /**
   * Every operation takes one token of a bucket after refilling it, hands tokens back to it, or
   * leaves it alone; only an accepted reservation takes.
   */
  lemma StepChanges(db: Database, op: Op, id: BucketId, q: nat) returns (c: Change)
    requires Inv(db) && Labelled(db.gateway, id, q) && Labelled(After(db, op).gateway, id, q)
    ensures Changes(db.gateway, After(db, op).gateway, id, q, c) && (c.Reserve? ==> Reserves(db, op, id) && op.now == c.now)
  {
    c := Same;
    if Step(db, op).Ok? {
      var db' := Step(db, op).value;
      if SweepScope(db, op).Some? {
        var scope, now := SweepScope(db, op).value, Instant(op).value;
        SweepOps(db, db', op);
        SweptChanges(db.gateway, scope, now, id, q);
        c := Release(|Returned(db.gateway, Refundable(db.gateway, scope), id)|, now);
      } else if LeavesRates(db, op) {
        OtherOps(db, db', op);
      } else {
        c := DirectChanges(db, db', op, id, q);
      }
    }
  }

  // ---- Whole runs ----

  /** The bucket belongs to policy `p` all along. */
  ghost predicate UnderPolicy(db: Database, ops: seq<Op>, id: BucketId, p: nat)
    requires Inv(db)
    decreases |ops|
  {
    && Labelled(db.gateway, id, p)
    && (ops == [] || (StepKeepsInvariant(db, ops[0]); UnderPolicy(After(db, ops[0]), ops[1..], id, p)))
  }

  lemma BucketFacts(db: Database, id: BucketId, p: nat)
    requires Inv(db) && Labelled(db.gateway, id, p)
    ensures BucketBounded(db.gateway.buckets[id]) && LabelAgrees(db.authority, db.gateway, id)
  {
  }

  /** From one state to another on the bucket's own clock. */
  ghost predicate OwnRise(g: Gateway, g': Gateway, id: BucketId, p: nat)
    requires id in g.buckets && id in g'.buckets
  {
    var b, b' := g.buckets[id], g'.buckets[id];
    && b.updatedAt <= b'.updatedAt && b'.rate == b.rate && b'.capacity == b.capacity
    && |Taken(g', p, id)| as real + b'.tokens <= |Taken(g, p, id)| as real + b.tokens + Refill(b'.updatedAt - b.updatedAt, b.rate)
  }

  lemma OwnRiseOn(g: Gateway, mid: Gateway, g': Gateway, id: BucketId, p: nat)
    requires id in g.buckets && id in mid.buckets && id in g'.buckets && OwnRise(g, mid, id, p) && OwnRise(mid, g', id, p)
    ensures OwnRise(g, g', id, p)
  {
    var b, m, b' := g.buckets[id], mid.buckets[id], g'.buckets[id];
    SecondsAdd(m.updatedAt - b.updatedAt, b'.updatedAt - m.updatedAt, b.rate);
    assert m.updatedAt - b.updatedAt + (b'.updatedAt - m.updatedAt) == b'.updatedAt - b.updatedAt;
  }

  lemma ChangesOwn(g: Gateway, g': Gateway, id: BucketId, p: nat, c: Change)
    requires id in g.buckets && id in g'.buckets && BucketBounded(g.buckets[id]) && Changes(g, g', id, p, c)
    ensures OwnRise(g, g', id, p)
  {
    EvolvesOwn(g.buckets[id], |Taken(g, p, id)|, g'.buckets[id], |Taken(g', p, id)|, c);
  }

  lemma OwnRiseItself(g: Gateway, id: BucketId, p: nat)
    requires id in g.buckets
    ensures OwnRise(g, g, id, p)
  {
  }

  lemma {:induction false} RunOwnRise(db: Database, ops: seq<Op>, id: BucketId, p: nat)
    requires Inv(db) && UnderPolicy(db, ops, id, p)
    ensures Labelled(Run(db, ops).gateway, id, p) && OwnRise(db.gateway, Run(db, ops).gateway, id, p)
    decreases |ops|
  {
    if ops == [] {
      OwnRiseItself(db.gateway, id, p);
    } else {
      var next, rest := After(db, ops[0]), ops[1..];
      BucketFacts(db, id, p);
      StepKeepsInvariant(db, ops[0]);
      RunOwnRise(next, rest, id, p);
      var c := StepChanges(db, ops[0], id, p);
      ChangesOwn(db.gateway, next.gateway, id, p, c);
      OwnRiseOn(db.gateway, next.gateway, Run(next, rest).gateway, id, p);
    }
  }

  /** What is taken and not handed back fits the burst and the refill for the time that passed on the bucket. */
  ghost predicate WithinBurst(g: Gateway, g': Gateway, id: BucketId, p: nat, budgets: Budgets)
    requires id in g.buckets && id in g'.buckets
  {
    var b, b' := g.buckets[id], g'.buckets[id];
    && b.updatedAt <= b'.updatedAt && 0.0 <= b'.tokens <= budgets.burst as real
    && (|Taken(g', p, id)| - |Taken(g, p, id)|) as real <= budgets.burst as real + Refill(b'.updatedAt - b.updatedAt, RateFor(budgets, id.key))
  }

  lemma OwnRiseBound(g: Gateway, g': Gateway, id: BucketId, p: nat, budgets: Budgets)
    requires id in g.buckets && id in g'.buckets && OwnRise(g, g', id, p) && BucketBounded(g.buckets[id]) && BucketBounded(g'.buckets[id])
    requires g.buckets[id].capacity == budgets.burst && g.buckets[id].rate == RateFor(budgets, id.key)
    ensures WithinBurst(g, g', id, p, budgets)
  {
  }

  /**
   * The token bucket bound: under one policy, between any two points of any run, what is taken minus
   * what is handed back is at most the burst plus the refill for the time that passed on the bucket,
   * and that time never goes back. Nothing is assumed of the clock.
   */
  lemma RateBound(db: Database, ops: seq<Op>, id: BucketId, p: nat)
    requires Inv(db) && UnderPolicy(db, ops, id, p)
    ensures p in db.authority.policies && Labelled(Run(db, ops).gateway, id, p)
    ensures WithinBurst(db.gateway, Run(db, ops).gateway, id, p, db.authority.policies[p].budgets)
  {
    var end := Run(db, ops);
    BucketFacts(db, id, p);
    RunOwnRise(db, ops, id, p);
    BucketFacts(end, id, p);
    OwnRiseBound(db.gateway, end.gateway, id, p, db.authority.policies[p].budgets);
  }

  /** Every accepted reservation on the bucket reads the clock between `from` and `to`. */
  ghost predicate ReservedWithin(db: Database, ops: seq<Op>, id: BucketId, from: int, to: int)
    requires Inv(db)
    decreases |ops|
  {
    ops == [] || (StepKeepsInvariant(db, ops[0]);
                  (Reserves(db, ops[0], id) ==> from <= ops[0].now <= to) && ReservedWithin(After(db, ops[0]), ops[1..], id, from, to))
  }

  ghost predicate Fits(g: Gateway, g': Gateway, id: BucketId, p: nat, from: int, to: int)
    requires id in g.buckets && id in g'.buckets
  {
    |Taken(g', p, id)| as real + Room(g'.buckets[id], from, to) <= |Taken(g, p, id)| as real + Room(g.buckets[id], from, to)
  }

  lemma {:induction false} RunFits(db: Database, ops: seq<Op>, id: BucketId, p: nat, from: int, to: int)
    requires Inv(db) && UnderPolicy(db, ops, id, p) && ReservedWithin(db, ops, id, from, to) && from <= to
    ensures Labelled(Run(db, ops).gateway, id, p) && Fits(db.gateway, Run(db, ops).gateway, id, p, from, to)
    decreases |ops|
  {
    if ops != [] {
      var next, rest := After(db, ops[0]), ops[1..];
      BucketFacts(db, id, p);
      StepKeepsInvariant(db, ops[0]);
      RunFits(next, rest, id, p, from, to);
      var c := StepChanges(db, ops[0], id, p);
      EvolvesWithin(db.gateway.buckets[id], |Taken(db.gateway, p, id)|, next.gateway.buckets[id], |Taken(next.gateway, p, id)|, c, from, to);
    }
  }

  lemma FitsBound(g: Gateway, g': Gateway, id: BucketId, p: nat, from: int, to: int)
    requires id in g.buckets && id in g'.buckets && Fits(g, g', id, p, from, to) && from <= to
    requires BucketBounded(g.buckets[id]) && BucketBounded(g'.buckets[id])
    ensures (|Taken(g', p, id)| - |Taken(g, p, id)|) as real <= g.buckets[id].capacity as real + Refill(to - from, g.buckets[id].rate)
  {
    RoomBounds(g.buckets[id], from, to);
    RoomBounds(g'.buckets[id], from, to);
  }

  /**
   * The same bound on the service's clock: when the accepted reservations of a run read the clock
   * between `from` and `to`, in any order and whatever other operations read, they take at most the
   * burst plus the refill from `from` to `to` more than is handed back.
   */
  lemma RateBoundBetween(db: Database, ops: seq<Op>, id: BucketId, p: nat, from: int, to: int)
    requires Inv(db) && UnderPolicy(db, ops, id, p) && ReservedWithin(db, ops, id, from, to) && from <= to
    ensures p in db.authority.policies
    ensures var budgets := db.authority.policies[p].budgets;
      (|Taken(Run(db, ops).gateway, p, id)| - |Taken(db.gateway, p, id)|) as real
        <= budgets.burst as real + Refill(to - from, RateFor(budgets, id.key))
  {
    var end := Run(db, ops);
    BucketFacts(db, id, p);
    RunFits(db, ops, id, p, from, to);
    BucketFacts(end, id, p);
    FitsBound(db.gateway, end.gateway, id, p, from, to);
  }
}
