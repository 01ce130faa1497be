/**
 * The service object: each operation changes the tables statement by statement inside a
 * transaction, and commits only when every statement succeeded.
 */
module AuthorizationServices {
  import opened Common
  import opened AuthorityModel
  import opened GatewayInvariant
  import opened AuthorityInvariant
  import opened AuthorityRuns
  import opened AuthorityTheorems
  import opened GatewaySweep
  import opened AuthorityMeaning
  import opened SafetyMeaning
  import opened ResponseAccounting

  /** What the statements rely on: keys, CHECK constraints and committed starts of prepared sessions. */
  predicate Operable(db: Database) {
    Referential(db) && StartsLabelled(db.gateway) && CountersChecked(db.gateway)
  }

  lemma InvOperable(db: Database)
    requires Inv(db)
    ensures Operable(db)
  {
    forall k | k in db.gateway.starts && db.gateway.sessions[k].status == Prepared
      ensures !db.gateway.starts[k].cancelled
    {
      assert RowConsistent(db.gateway, k);
    }
    forall e | e in db.gateway.accounts
      ensures db.gateway.accounts[e].reserved >= 0 && db.gateway.accounts[e].active >= 0
    {
      assert Balanced(db.gateway, e);
    }
  }

  /** A refused transaction is rolled back. */
  function Settled(db: Database, attempt: Attempt): Database {
    if attempt.Ok? then attempt.value else db
  }

  /** The caller is told why an attempt was refused, and nothing else changed; or it is committed. */
  ghost predicate Carries(code: Option<Code>, before: Database, after: Database, attempt: Attempt) {
    && after == Settled(before, attempt)
    && code == if attempt.Ok? then None else Some(attempt.error)
  }

  /** As above, except that a failing sweep may report either of its two errors. */
  ghost predicate Sweeps(code: Option<Code>, before: Database, after: Database, attempt: Attempt) {
    after == Settled(before, attempt) && (code.None? <==> attempt.Ok?)
  }

  method ReserveRateBucket(buckets: map<BucketId, Bucket>, id: BucketId, policy: nat, rate: real, capacity: int, now: int)
    returns (r: Result<map<BucketId, Bucket>, Code>)
    ensures r == ReserveBucket(buckets, id, policy, rate, capacity, now)
    ensures Carrying(buckets, id, policy, rate, capacity) ==>
      (r.Ok? <==> CanPay(buckets, id, policy, capacity, now))
    ensures Carrying(buckets, id, policy, rate, capacity) && r.Ok? ==>
      Paid(buckets, r.value, id, policy, capacity, now) && r.value == buckets[id := r.value[id]]
  {
    if Carrying(buckets, id, policy, rate, capacity) { ReserveMeaning(buckets, id, policy, rate, capacity, now); }
    var tokens: real;
    if id !in buckets || buckets[id].policy != policy {
      tokens := capacity as real;
    } else {
      var row := buckets[id];
      if now < row.updatedAt { return Err(ClockUntrusted); }
      tokens := MinReal(capacity as real, row.tokens + Refill(now - row.updatedAt, rate));
    }
    if tokens + TOLERANCE < 1.0 { return Err(RateLimited); }
    if tokens - 1.0 < 0.0 { return Err(IntegrityFailure); }
    return Ok(buckets[id := Bucket(policy, rate, capacity, tokens - 1.0, now)]);
  }

  /** The engagement's bucket first, then the host's: both are debited or neither. */
  method ReserveRates(buckets: map<BucketId, Bucket>, e: nat, p: nat, host: string, b: Budgets, now: int)
    returns (r: Result<map<BucketId, Bucket>, Code>)
    ensures r == TakeTokens(buckets, e, p, host, b, now)
    ensures Carrying(buckets, BucketId(e, AllHosts), p, b.globalRate, b.burst) && Carrying(buckets, BucketId(e, Host(host)), p, b.hostRate, b.burst) ==>
      && (r.Ok? <==> CanPay(buckets, BucketId(e, AllHosts), p, b.burst, now) && CanPay(buckets, BucketId(e, Host(host)), p, b.burst, now))
      && (r.Ok? ==> BothPaid(buckets, r.value, e, p, host, b.burst, now))
  {
    if Carrying(buckets, BucketId(e, AllHosts), p, b.globalRate, b.burst) && Carrying(buckets, BucketId(e, Host(host)), p, b.hostRate, b.burst) {
      TakeMeaning(buckets, e, p, host, b, now);
    }
    r := ReserveRateBucket(buckets, BucketId(e, AllHosts), p, b.globalRate, b.burst, now);
    if r.Err? { return; }
    r := ReserveRateBucket(r.value, BucketId(e, Host(host)), p, b.hostRate, b.burst, now);
  }

  method ReserveSession(gw: Gateway, g: nat, grant: Grant, destination: Destination, b: Budgets, k: nat, now: int)
    returns (r: Result<Gateway, Code>)
    ensures r == OpenSession(gw, g, grant, destination, b, k, now)
  {
    var e, p, tx := grant.engagement, grant.policy, gw;
    tx := tx.(accounts := tx.accounts[e := Upserted(tx, e, p, b)]);
    var acc := tx.accounts[e];
    if acc.reserved + acc.committed + 1 > acc.requestLimit || acc.active + 1 > acc.connectionLimit { return Err(BudgetExhausted); }
    tx := tx.(accounts := tx.accounts[e := acc.(reserved := acc.reserved + 1, active := acc.active + 1)]);
    assert tx.accounts == gw.accounts[e := acc.(reserved := acc.reserved + 1, active := acc.active + 1)];
    var buckets := ReserveRates(tx.buckets, e, p, destination.host, b, now);
    if buckets.Err? { return Err(buckets.error); }
    tx := tx.(buckets := buckets.value);
    var limit := Min(b.responseBytes, grant.responseBytes);
    if k in tx.sessions || limit <= 0 { return Err(SessionReplayed); }
    tx := tx.(reservations := tx.reservations[k := Reservation(e, p, g, limit, Held)]);
    tx := tx.(rates := tx.rates[k := RateHold(e, p, destination.host, Held)]);
    tx := tx.(sessions := tx.sessions[k := Session(destination.attestation, Prepared)]);
    return Ok(tx);
  }

  class AuthorizationService {
    var db: Database

    constructor ()
      ensures db == EMPTY
    {
      db := EMPTY;
    }

    // ---- Gateway sessions ----

    method PrepareGatewaySession(g: nat, d: nat, k: nat, now: int, trusted: bool) returns (code: Option<Code>)
      requires Referential(db)
      modifies this
      ensures Carries(code, old(db), db, PrepareSession(old(db), g, d, k, now, trusted))
      ensures Inv(old(db)) ==> (code.None? <==> MayOpen(old(db), g, d, k, now, trusted))
      ensures Inv(old(db)) && code.None? ==> SessionOpened(old(db), db, g, d, k, now)
    {
      if Inv(db) { PrepareMeaning(db, g, d, k, now, trusted); }
      var a, gw := db.authority, db.gateway;
      if g !in a.grants || d !in a.destinations || a.destinations[d].grant != g { return Some(SessionDenied); }
      if exists j :: j in gw.reservations && gw.reservations[j].grant == g { return Some(SessionReplayed); }
      if !MayPrepare(a, a.destinations[d], now, trusted) { return Some(SessionDenied); }
      var grant := a.grants[g];
      var tables := ReserveSession(gw, g, grant, a.destinations[d], a.policies[grant.policy].budgets, k, now);
      if tables.Err? { return Some(tables.error); }
      db := db.(gateway := tables.value);
      return None;
    }

    method CommitGatewayRequestStart(k: nat, now: int, trusted: bool) returns (code: Option<Code>)
      requires Referential(db)
      modifies this
      ensures Carries(code, old(db), db, CommitStart(old(db), k, now, trusted))
      ensures Inv(old(db)) ==> (code.None? <==> MayBegin(old(db), k, now, trusted))
      ensures Inv(old(db)) && code.None? ==> RequestBegun(old(db), db, k, now)
    {
      if Inv(db) { BeginMeaning(db, k, now, trusted); }
      var a, g := db.authority, db.gateway;
      if k !in g.sessions { return Some(RequestDenied); }
      if k in g.starts { return Some(RequestReplayed); }
      var r := g.reservations[k];
      var scheduled := ScheduledDeadline(a.policies[r.policy], now);
      var deadline := RequestDeadline(a.grants[r.grant], a.engagements[r.engagement], a.attestations[g.sessions[k].attestation], scheduled, now);
      if !MayStart(a, g, k, deadline, now, trusted) { return Some(RequestDenied); }
      code := CommitStarted(k, Start(now, deadline, false));
    }

    method CommitStarted(k: nat, start: Start) returns (code: Option<Code>)
      requires k in db.gateway.reservations && k in db.gateway.rates && db.gateway.reservations[k].grant in db.authority.grants
      modifies this
      ensures Carries(code, old(db), db, StartRequest(old(db).authority, old(db).gateway, k, start))
    {
      var a, g := db.authority, db.gateway;
      var r := g.reservations[k];
      a := a.(grants := a.grants[r.grant := a.grants[r.grant].(used := true)]);
      if r.engagement !in g.accounts || g.accounts[r.engagement].reserved < 1 { return Some(RequestDenied); }
      var acc := g.accounts[r.engagement];
      g := g.(accounts := g.accounts[r.engagement := acc.(reserved := acc.reserved - 1, committed := acc.committed + 1)]);
      g := g.(reservations := g.reservations[k := r.(status := Spent)]);
      g := g.(rates := g.rates[k := g.rates[k].(status := Spent)]);
      g := g.(starts := g.starts[k := start]);
      db := Database(a, g);
      return None;
    }

    method FinalizeGatewayRequest(k: nat, m: Measurement, claimId: Option<nat>, trusted: bool) returns (code: Option<Code>)
      requires Referential(db)
      modifies this
      ensures Carries(code, old(db), db, FinalizeRequest(old(db), k, m, claimId, trusted))
      ensures Inv(old(db)) ==> (code.None? <==> MayFinish(old(db).gateway, k, m, claimId, trusted))
      ensures Inv(old(db)) && code.None? ==> RequestFinished(old(db), db, k, m)
    {
      if Inv(db) { FinishMeaning(db, k, m, claimId, trusted); }
      var g := db.gateway;
      if !CountsPlausible(m) { return Some(AccountingInvalid); }
      if k !in g.starts { return Some(RequestNotFound); }
      if k in g.results { return Some(ResultReplayed); }
      if k in g.claims {
        if claimId != Some(g.claims[k].claimId) || g.claims[k].status != Claimed { return Some(ClaimInvalid); }
      } else if claimId != None {
        return Some(ClaimInvalid);
      }
      if g.starts[k].cancelled || g.sessions[k].status != Prepared { return Some(RequestInactive); }
      var r := g.reservations[k];
      if !Accepted(m, r.responseLimit, g.starts[k].committedAt, g.starts[k].deadline) || !trusted { return Some(AccountingInvalid); }
      code := CommitClosed(k, m);
    }

    method CommitClosed(k: nat, m: Measurement) returns (code: Option<Code>)
      requires k in db.gateway.reservations && k in db.gateway.sessions
      modifies this
      ensures Carries(code, old(db), db, CloseRequest(old(db), k, m))
    {
      var g := db.gateway;
      var e := g.reservations[k].engagement;
      if e !in g.accounts || g.accounts[e].active < 1 { return Some(AccountingInvalid); }
      g := g.(accounts := g.accounts[e := g.accounts[e].(active := g.accounts[e].active - 1)]);
      g := g.(sessions := g.sessions[k := g.sessions[k].(status := Closed)]);
      g := g.(results := g.results[k := m]);
      if k in g.claims { g := g.(claims := g.claims[k := g.claims[k].(status := ClaimCompleted)]); }
      db := db.(gateway := g);
      return None;
    }

    method AbortGatewaySession(k: nat, now: int, reasonGiven: bool) returns (code: Option<Code>)
      requires Referential(db)
      modifies this
      ensures Carries(code, old(db), db, AbortSession(old(db), k, now, reasonGiven))
      ensures Inv(old(db)) ==> (code.None? <==> reasonGiven && k in old(db).gateway.sessions && old(db).gateway.sessions[k].status == Prepared && k !in old(db).gateway.starts)
      ensures Inv(old(db)) && code.None? ==> SessionAborted(old(db), db, k, now)
    {
      if Inv(db) { AbortMeaning(db, k, now, reasonGiven); }
      if !reasonGiven { return Some(ReasonRequired); }
      if k !in db.gateway.sessions { return Some(SessionNotFound); }
      if db.gateway.sessions[k].status != Prepared { return Some(SessionFinalized); }
      if k in db.gateway.starts { return Some(RequestCommitted); }
      code := CommitReleased(k, now);
    }

    method CommitReleased(k: nat, now: int) returns (code: Option<Code>)
      requires k in db.gateway.reservations && k in db.gateway.rates && k in db.gateway.sessions
      modifies this
      ensures Carries(code, old(db), db, ReleaseSession(old(db), k, now))
    {
      var released := ReleaseRateReservation(db.gateway, k, now);
      if released.Err? { return Some(released.error); }
      var g := released.value;
      var r := g.reservations[k];
      if r.engagement in g.accounts {
        var acc := g.accounts[r.engagement];
        if acc.reserved < 1 || acc.active < 1 { return Some(IntegrityFailure); }
        g := g.(accounts := g.accounts[r.engagement := acc.(reserved := acc.reserved - 1, active := acc.active - 1)]);
      }
      if r.status == Held { g := g.(reservations := g.reservations[k := r.(status := Released)]); }
      g := g.(sessions := g.sessions[k := g.sessions[k].(status := Aborted)]);
      db := Database(db.authority, g);
      return None;
    }

    method ClaimGatewayFixture(k: nat, claimId: nat, now: int, contained: bool) returns (code: Option<Code>)
      requires Referential(db)
      modifies this
      ensures Carries(code, old(db), db, ClaimFixture(old(db), k, claimId, now, contained))
      ensures Inv(old(db)) ==> (code.None? <==> MayClaim(old(db), k, now, contained))
      ensures Inv(old(db)) && code.None? ==> db == old(db).(gateway := old(db).gateway.(claims := old(db).gateway.claims[k := Claim(claimId, Claimed)]))
    {
      if Inv(db) { ClaimMeaning(db, k, claimId, now, contained); }
      var a, g := db.authority, db.gateway;
      if !contained || k !in g.starts { return Some(FixtureDenied); }
      if k in g.claims || k in g.results { return Some(FixtureReplayed); }
      var r, grant := g.reservations[k], a.grants[g.reservations[k].grant];
      if g.starts[k].cancelled || g.sessions[k].status != Prepared { return Some(FixtureDenied); }
      if r.status != Spent || g.rates[k].status != Spent || !grant.used || grant.revoked { return Some(FixtureDenied); }
      if now >= g.starts[k].deadline || !(1 <= r.responseLimit <= 1_048_576) { return Some(FixtureDenied); }
      db := db.(gateway := g.(claims := g.claims[k := Claim(claimId, Claimed)]));
      return None;
    }

    // ---- Grants ----

    method MintActionGrant(d: nat, g: nat, audience: Audience, now: int, intentExpiresAt: int, timeoutSeconds: int,
                           responseBytes: int, trusted: bool) returns (code: Option<Code>)
      requires Referential(db)
      modifies this
      ensures Carries(code, old(db), db, MintGrant(old(db), d, g, audience, now, intentExpiresAt, timeoutSeconds, responseBytes, trusted))
      ensures Inv(old(db)) ==> (code.None? <==> MayMint(old(db).authority, d, g, now, intentExpiresAt, trusted))
      ensures Inv(old(db)) && code.None? ==> (if Granted(old(db).authority, d) then db == old(db) else GrantMinted(old(db).authority, db.authority, d, g, audience, now, intentExpiresAt, timeoutSeconds, responseBytes))
    {
      if Inv(db) { MintMeaning(db, d, g, audience, now, intentExpiresAt, timeoutSeconds, responseBytes, trusted); }
      var a := db.authority;
      if d !in a.decisions { return Some(NotFound); }
      var decision := a.decisions[d];
      var policy, engagement := a.policies[decision.policy], a.engagements[decision.engagement];
      if !trusted || !decision.allowed || engagement.activePolicy != Some(decision.policy) || !Live(policy)
         || engagement.status != Active || a.global != GlobalActive {
        return Some(GrantAuthorityInvalid);
      }
      if exists h :: h in a.grants && a.grants[h].decision == d { return None; }
      var expires := Min(now + 30 * SECOND, Min(intentExpiresAt, policy.notAfter));
      if expires <= now { return Some(GrantExpired); }
      if g in a.grants || exists h :: h in a.grants && a.grants[h].intent == decision.intent { return Some(IntegrityFailure); }
      var grant := Grant(d, decision.intent, decision.engagement, decision.policy, engagement.epoch, audience, now, expires,
                         Min(timeoutSeconds, 300), Min(responseBytes, policy.budgets.responseBytes), false, false);
      db := db.(authority := a.(grants := a.grants[g := grant]));
      return None;
    }

    method ConsumeActionGrant(g: nat, audience: Audience, now: int, trusted: bool) returns (code: Option<Code>)
      requires Referential(db)
      modifies this
      ensures Carries(code, old(db), db, ConsumeGrant(old(db), g, audience, now, trusted))
      ensures Inv(old(db)) ==> (code.None? <==> MayConsume(old(db).authority, g, audience, now, trusted))
      ensures Inv(old(db)) && code.None? ==> GrantSpent(old(db).authority, db.authority, g) && db.gateway == old(db).gateway
    {
      if Inv(db) { ConsumeMeaning(db, g, audience, now, trusted); }
      var a := db.authority;
      if g !in a.grants { return Some(NotFound); }
      var grant := a.grants[g];
      if !trusted || audience != grant.audience { return Some(GrantBindingMismatch); }
      if grant.used { return Some(GrantReplayed); }
      if grant.revoked { return Some(GrantRevoked); }
      if grant.notBefore > now { return Some(GrantNotYetValid); }
      if grant.expiresAt <= now { return Some(GrantExpired); }
      if !StillAuthorized(a, grant) || !a.policies[grant.policy].activated { return Some(GrantRevoked); }
      db := db.(authority := a.(grants := a.grants[g := grant.(used := true)]));
      return None;
    }

    // ---- Safety state ----

    /** Commits the new authority together with the sweep, or neither. */
    method CommitWithSweep(a: Authority, scope: Option<nat>, now: int) returns (code: Option<Code>)
      requires Operable(db)
      modifies this
      ensures Sweeps(code, old(db), db, WithSweep(a, old(db).gateway, scope, now))
    {
      var swept, _ := AbortGatewaySessions(db.gateway, scope, now);
      if swept.Err? { return Some(swept.error); }
      db := Database(a, swept.value);
      return None;
    }

    method SetGlobal(status: GlobalStatus, now: int, reasonGiven: bool) returns (code: Option<Code>)
      requires Operable(db)
      modifies this
      ensures Sweeps(code, old(db), db, SetGlobalSafety(old(db), status, now, reasonGiven))
      ensures Inv(old(db)) ==> (code.None? <==> reasonGiven)
      ensures Inv(old(db)) && code.None? ==> (if status == GlobalActive then db == old(db).(authority := old(db).authority.(global := GlobalActive)) else Halted(old(db), db, status, now))
    {
      if Inv(db) { GlobalMeaning(db, status, now, reasonGiven); }
      if !reasonGiven { return Some(ReasonRequired); }
      var a := db.authority;
      if status == GlobalActive {
        db := db.(authority := a.(global := GlobalActive));
        return None;
      }
      a := RevokeGrants(a, None);
      a := PauseActive(a);
      a := InvalidateAttestations(a, None);
      a := a.(global := status);
      code := CommitWithSweep(a, None, now);
    }

    method Recover(now: int) returns (code: Option<Code>)
      requires Operable(db)
      modifies this
      ensures Sweeps(code, old(db), db, RecoverStartup(old(db), now))
      ensures Inv(old(db)) ==> code.None? && Halted(old(db), db, GlobalPaused, now)
    {
      code := SetGlobal(GlobalPaused, now, true);
    }

    method PauseEngagement(e: nat, now: int, reasonGiven: bool) returns (code: Option<Code>)
      requires Operable(db)
      modifies this
      ensures Sweeps(code, old(db), db, PauseAssessment(old(db), e, now, reasonGiven))
      ensures Inv(old(db)) ==> (code.None? <==> reasonGiven && e in old(db).authority.engagements)
      ensures Inv(old(db)) && code.None? ==> EngagementPaused(old(db), db, e, now)
    {
      if Inv(db) { PauseMeaning(db, e, now, reasonGiven); }
      if !reasonGiven { return Some(ReasonRequired); }
      if e !in db.authority.engagements { return Some(NotFound); }
      var a := RevokeGrants(db.authority, Some(e));
      a := a.(engagements := a.engagements[e := a.engagements[e].(status := Paused, epoch := a.engagements[e].epoch + 1)]);
      a := InvalidateAttestations(a, Some(e));
      code := CommitWithSweep(a, Some(e), now);
    }

    method Revoke(p: nat, now: int, reasonGiven: bool) returns (code: Option<Code>)
      requires Operable(db)
      modifies this
      ensures Sweeps(code, old(db), db, RevokePolicy(old(db), p, now, reasonGiven))
      ensures Inv(old(db)) ==> (code.None? <==> reasonGiven && p in old(db).authority.policies && (old(db).authority.policies[p].version == V2 ==> Live(old(db).authority.policies[p])))
      ensures Inv(old(db)) && code.None? ==> PolicyWithdrawn(old(db), db, p, now)
    {
      if Inv(db) { RevokeMeaning(db, p, now, reasonGiven); }
      if !reasonGiven { return Some(ReasonRequired); }
      var a := db.authority;
      if p !in a.policies { return Some(NotFound); }
      if a.policies[p].version == V2 && !Live(a.policies[p]) { return Some(IntegrityFailure); }
      var e := a.policies[p].engagement;
      a := a.(policies := a.policies[p := a.policies[p].(revoked := true)]);
      a := a.(engagements := a.engagements[e := a.engagements[e].(status := Withdrawn, activePolicy := None, epoch := a.engagements[e].epoch + 1)]);
      a := RevokeGrants(a, Some(e));
      a := InvalidateAttestations(a, Some(e));
      code := CommitWithSweep(a, Some(e), now);
    }

    /** The previous policy is one row; that there is only one is the invariant. */
    method Activate(p: nat, now: int, trusted: bool, current: bool) returns (code: Option<Code>)
      requires Operable(db) && OneLivePolicy(db.authority)
      modifies this
      ensures Sweeps(code, old(db), db, ActivatePolicy(old(db), p, now, trusted, current))
      ensures Inv(old(db)) ==> (code.None? <==> MayActivate(old(db).authority, p, trusted, current))
      ensures Inv(old(db)) && code.None? ==> PolicyActivated(old(db), db, p, now)
    {
      if Inv(db) { ActivateMeaning(db, p, now, trusted, current); }
      var a := db.authority;
      if p !in a.policies { return Some(NotFound); }
      var policy := a.policies[p];
      var e := policy.engagement;
      if policy.version == UnsupportedVersion { return Some(PolicyUnsupported); }
      if policy.revoked { return Some(PolicyRevoked); }
      if policy.activated { return Some(PolicyAlreadyActive); }
      if policy.version == V2 {
        if a.global != GlobalActive { return Some(GlobalSafetyPaused); }
        if a.engagements[e].status in {Paused, Expired, Withdrawn} { return Some(EngagementInactive); }
        if !current { return Some(PolicyNotCurrent); }
      }
      if !trusted { return Some(Untrusted); }
      if exists q :: q in a.policies && Replaced(a, q, p) {
        var q :| q in a.policies && Replaced(a, q, p);
        a := a.(policies := a.policies[q := a.policies[q].(revoked := true)]);
        a := a.(engagements := a.engagements[e := a.engagements[e].(epoch := a.engagements[e].epoch + 1)]);
        a := RevokeGrants(a, Some(e));
        OnlyOneReplaced(db.authority, p, q);
      }
      assert a == RetirePrevious(db.authority, p);
      a := a.(policies := a.policies[p := a.policies[p].(activated := true)]);
      a := a.(engagements := a.engagements[e := a.engagements[e].(status := Active, activePolicy := Some(p))]);
      a := InvalidateAttestations(a, Some(e));
      code := CommitWithSweep(a, Some(e), now);
    }

    /** Every operation leaves the database as the transaction does, and keeps the invariant. */
    method Execute(op: Op) returns (code: Option<Code>)
      requires Inv(db)
      modifies this
      ensures Inv(db) && Sweeps(code, old(db), db, Step(old(db), op))
    {
      InvOperable(db);
      StepKeepsInvariant(db, op);
      code := Dispatch(op);
    }

    method Dispatch(op: Op) returns (code: Option<Code>)
      requires Operable(db) && OneLivePolicy(db.authority)
      modifies this
      ensures Sweeps(code, old(db), db, Step(old(db), op))
    {
      if op.DoPrepareSession? || op.DoCommitStart? || op.DoFinalizeRequest? || op.DoClaimFixture? || op.DoAbortSession? {
        code := DispatchSession(op);
      } else if op.DoActivatePolicy? || op.DoRevokePolicy? || op.DoSetGlobalSafety? || op.DoRecoverStartup? || op.DoPauseAssessment? {
        code := DispatchSafety(op);
      } else {
        code := DispatchRecord(op);
      }
    }

    method DispatchSession(op: Op) returns (code: Option<Code>)
      requires Referential(db)
      requires op.DoPrepareSession? || op.DoCommitStart? || op.DoFinalizeRequest? || op.DoClaimFixture? || op.DoAbortSession?
      modifies this
      ensures Sweeps(code, old(db), db, Step(old(db), op))
    {
      match op {
        case DoPrepareSession(g, d, k, now, trusted) => code := PrepareGatewaySession(g, d, k, now, trusted);
        case DoCommitStart(k, now, trusted) => code := CommitGatewayRequestStart(k, now, trusted);
        case DoFinalizeRequest(k, m, claimId, trusted) => code := FinalizeGatewayRequest(k, m, claimId, trusted);
        case DoClaimFixture(k, claimId, now, contained) => code := ClaimGatewayFixture(k, claimId, now, contained);
        case DoAbortSession(k, now, reasonGiven) => code := AbortGatewaySession(k, now, reasonGiven);
      }
    }

    method DispatchSafety(op: Op) returns (code: Option<Code>)
      requires Operable(db) && OneLivePolicy(db.authority)
      requires op.DoActivatePolicy? || op.DoRevokePolicy? || op.DoSetGlobalSafety? || op.DoRecoverStartup? || op.DoPauseAssessment?
      modifies this
      ensures Sweeps(code, old(db), db, Step(old(db), op))
    {
      match op {
        case DoActivatePolicy(p, now, trusted, current) => code := Activate(p, now, trusted, current);
        case DoRevokePolicy(p, now, reasonGiven) => code := Revoke(p, now, reasonGiven);
        case DoSetGlobalSafety(status, now, reasonGiven) => code := SetGlobal(status, now, reasonGiven);
        case DoRecoverStartup(now) => code := Recover(now);
        case DoPauseAssessment(e, now, reasonGiven) => code := PauseEngagement(e, now, reasonGiven);
      }
    }

    method DispatchRecord(op: Op) returns (code: Option<Code>)
      requires Referential(db)
      modifies this
      ensures Sweeps(code, old(db), db, Step(old(db), op))
    {
      match op {
        case DoMintGrant(d, g, audience, now, intentExpiresAt, timeoutSeconds, responseBytes, trusted) =>
          code := MintActionGrant(d, g, audience, now, intentExpiresAt, timeoutSeconds, responseBytes, trusted);
        case DoConsumeGrant(g, audience, now, trusted) => code := ConsumeActionGrant(g, audience, now, trusted);
        case _ =>
          var attempt := Step(db, op);
          db := Settled(db, attempt);
          code := if attempt.Ok? then None else Some(attempt.error);
      }
    }
  }

  lemma OnlyOneReplaced(a: Authority, p: nat, q: nat)
    requires OneLivePolicy(a) && p in a.policies && q in a.policies && Replaced(a, q, p)
    ensures (map r | r in a.policies :: if Replaced(a, r, p) then a.policies[r].(revoked := true) else a.policies[r])
      == a.policies[q := a.policies[q].(revoked := true)]
  {
    forall r | r in a.policies && Replaced(a, r, p)
      ensures r == q
    {
      assert NoRival(a, q, r);
    }
  }
}
