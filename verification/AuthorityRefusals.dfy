/** Why an operation was refused: in a state that satisfies the invariant, what each error code tells the caller. */
module AuthorityRefusals {
  import opened Common
  import opened AuthorityModel
  import opened GatewayInvariant
  import opened AuthorityInvariant
  import opened AuthorityMeaning
  import opened ResponseAccounting

  lemma ConsumeRefused(db: Database, g: nat, audience: Audience, now: int, trusted: bool)
    requires Inv(db) && ConsumeGrant(db, g, audience, now, trusted).Err?
    ensures var grants := db.authority.grants;
      match ConsumeGrant(db, g, audience, now, trusted).error
      case NotFound => g !in grants
      case GrantBindingMismatch => g in grants && (!trusted || audience != grants[g].audience)
      case GrantReplayed => g in grants && grants[g].used
      case GrantRevoked => g in grants && grants[g].revoked
      case GrantNotYetValid => g in grants && now < grants[g].notBefore
      case GrantExpired => g in grants && grants[g].expiresAt <= now
      case _ => false
  {
    LiveGrantInForce(db.authority, g);
  }

  /** Which of a request's two buckets refuses it, and why. */
  ghost predicate BucketRefuses(buckets: map<BucketId, Bucket>, id: BucketId, p: nat, capacity: int, now: int, code: Code) {
    match code
    case ClockUntrusted => id in buckets && buckets[id].policy == p && now < buckets[id].updatedAt
    case RateLimited => Standing(buckets, id, p, capacity, now) < 1.0
    case IntegrityFailure => 1.0 - TOLERANCE <= Standing(buckets, id, p, capacity, now) < 1.0
    case _ => false
  }

  lemma ReserveRefused(buckets: map<BucketId, Bucket>, id: BucketId, p: nat, rate: real, capacity: int, now: int)
    requires Carrying(buckets, id, p, rate, capacity) && ReserveBucket(buckets, id, p, rate, capacity, now).Err?
    ensures BucketRefuses(buckets, id, p, capacity, now, ReserveBucket(buckets, id, p, rate, capacity, now).error)
  {
  }

  lemma TakeRefused(buckets: map<BucketId, Bucket>, e: nat, p: nat, host: string, b: Budgets, now: int)
    requires Carrying(buckets, BucketId(e, AllHosts), p, b.globalRate, b.burst)
    requires Carrying(buckets, BucketId(e, Host(host)), p, b.hostRate, b.burst)
    requires TakeTokens(buckets, e, p, host, b, now).Err?
    ensures var code := TakeTokens(buckets, e, p, host, b, now).error;
      BucketRefuses(buckets, BucketId(e, AllHosts), p, b.burst, now, code) || BucketRefuses(buckets, BucketId(e, Host(host)), p, b.burst, now, code)
  {
    var all, one := BucketId(e, AllHosts), BucketId(e, Host(host));
    var first := ReserveBucket(buckets, all, p, b.globalRate, b.burst, now);
    if first.Err? {
      ReserveRefused(buckets, all, p, b.globalRate, b.burst, now);
    } else {
      assert one in first.value <==> one in buckets;
      assert one in buckets ==> first.value[one] == buckets[one];
      ReserveRefused(first.value, one, p, b.hostRate, b.burst, now);
    }
  }

  /** The authority is not there, the grant already has a session, the account or a bucket is exhausted, or the key or limit is unusable. */
  ghost predicate OpenRefusal(db: Database, g: nat, d: nat, k: nat, now: int, trusted: bool, code: Code)
    requires Referential(db)
  {
    var a, gw := db.authority, db.gateway;
    if code == SessionDenied then !(MayConsume(a, g, EgressGateway, now, trusted) && d in a.destinations && a.destinations[d].grant == g
                                    && a.destinations[d].allowed && a.destinations[d].host != "" && a.attestations[a.destinations[d].attestation].valid
                                    && UsableBudgets(a.policies[a.grants[g].policy].budgets))
    else
      && g in a.grants && d in a.destinations
      && var grant, b := a.grants[g], a.policies[a.grants[g].policy].budgets;
         match code
         case SessionReplayed =>
           (exists j :: j in gw.reservations && gw.reservations[j].grant == g) || k in gw.sessions || b.responseBytes <= 0 || grant.responseBytes <= 0
         case BudgetExhausted =>
           |Waiting(gw, grant.engagement)| + |Begun(gw, grant.engagement)| >= b.totalRequests || |Open(gw, grant.engagement)| >= b.connections
         case _ =>
           || BucketRefuses(gw.buckets, BucketId(grant.engagement, AllHosts), grant.policy, b.burst, now, code)
           || BucketRefuses(gw.buckets, BucketId(grant.engagement, Host(a.destinations[d].host)), grant.policy, b.burst, now, code)
  }

  /** Which check of a preparation's second half refuses it. */
  lemma OpenSessionCode(gw: Gateway, g: nat, grant: Grant, destination: Destination, b: Budgets, k: nat, now: int)
    requires OpenSession(gw, g, grant, destination, b, k, now).Err?
    ensures var code := OpenSession(gw, g, grant, destination, b, k, now).error;
      var acc := Upserted(gw, grant.engagement, grant.policy, b);
      var taken := TakeTokens(gw.buckets, grant.engagement, grant.policy, destination.host, b, now);
      || (code == BudgetExhausted && (acc.reserved + acc.committed >= b.totalRequests || acc.active >= b.connections))
      || (taken.Err? && taken.error == code)
      || (code == SessionReplayed && (k in gw.sessions || b.responseBytes <= 0 || grant.responseBytes <= 0))
  {
  }

  /** A preparation refused before it reaches the account. */
  lemma DeniedCode(db: Database, g: nat, d: nat, k: nat, now: int, trusted: bool)
    requires Referential(db) && g in db.authority.grants && d in db.authority.destinations && db.authority.destinations[d].grant == g
    requires Alive(db.authority.grants[g]) ==> StillAuthorized(db.authority, db.authority.grants[g])
    requires (exists j :: j in db.gateway.reservations && db.gateway.reservations[j].grant == g)
             || !MayPrepare(db.authority, db.authority.destinations[d], now, trusted)
    ensures PrepareSession(db, g, d, k, now, trusted).Err?
    ensures OpenRefusal(db, g, d, k, now, trusted, PrepareSession(db, g, d, k, now, trusted).error)
  {
  }

  /** The code of a later refusal, given what the invariant says of the buckets and the account. */
  lemma OpenCode(db: Database, g: nat, d: nat, k: nat, now: int, trusted: bool)
    requires Referential(db) && g in db.authority.grants && d in db.authority.destinations && db.authority.destinations[d].grant == g
    requires var a, gw, grant := db.authority, db.gateway, db.authority.grants[g];
      var host, b := a.destinations[d].host, a.policies[grant.policy].budgets;
      var acc := Upserted(gw, grant.engagement, grant.policy, b);
      var taken := TakeTokens(gw.buckets, grant.engagement, grant.policy, host, b, now);
      && MayPrepare(a, a.destinations[d], now, trusted) && (forall j :: j in gw.reservations ==> gw.reservations[j].grant != g)
      && acc.reserved == |Waiting(gw, grant.engagement)| && acc.active == |Open(gw, grant.engagement)| && acc.committed == |Begun(gw, grant.engagement)|
      && (taken.Err? ==>
            && taken.error in {ClockUntrusted, RateLimited, IntegrityFailure}
            && (BucketRefuses(gw.buckets, BucketId(grant.engagement, AllHosts), grant.policy, b.burst, now, taken.error)
                || BucketRefuses(gw.buckets, BucketId(grant.engagement, Host(host)), grant.policy, b.burst, now, taken.error)))
    requires PrepareSession(db, g, d, k, now, trusted).Err?
    ensures OpenRefusal(db, g, d, k, now, trusted, PrepareSession(db, g, d, k, now, trusted).error)
  {
    var a, gw := db.authority, db.gateway;
    var grant, destination, b := a.grants[g], a.destinations[d], a.policies[a.grants[g].policy].budgets;
    assert OpenSession(gw, g, grant, destination, b, k, now) == Err(PrepareSession(db, g, d, k, now, trusted).error);
    OpenSessionCode(gw, g, grant, destination, b, k, now);
  }

  lemma LateRefused(db: Database, g: nat, d: nat, k: nat, now: int, trusted: bool)
    requires Inv(db) && g in db.authority.grants && d in db.authority.destinations && db.authority.destinations[d].grant == g
    requires MayPrepare(db.authority, db.authority.destinations[d], now, trusted) && PrepareSession(db, g, d, k, now, trusted).Err?
    requires forall j :: j in db.gateway.reservations ==> db.gateway.reservations[j].grant != g
    ensures OpenRefusal(db, g, d, k, now, trusted, PrepareSession(db, g, d, k, now, trusted).error)
  {
    var a, gw := db.authority, db.gateway;
    var grant, host, b := a.grants[g], a.destinations[d].host, a.policies[a.grants[g].policy].budgets;
    BucketsCarry(a, gw, grant.engagement, grant.policy, host);
    UpsertCounts(gw, grant.engagement, grant.policy, b);
    if TakeTokens(gw.buckets, grant.engagement, grant.policy, host, b, now).Err? {
      TakeRefused(gw.buckets, grant.engagement, grant.policy, host, b, now);
    }
    OpenCode(db, g, d, k, now, trusted);
  }

  /** A refused preparation is refused for the reason its code names. */
  lemma PrepareRefused(db: Database, g: nat, d: nat, k: nat, now: int, trusted: bool)
    requires Inv(db) && PrepareSession(db, g, d, k, now, trusted).Err?
    ensures OpenRefusal(db, g, d, k, now, trusted, PrepareSession(db, g, d, k, now, trusted).error)
  {
    var a, gw := db.authority, db.gateway;
    if g in a.grants && d in a.destinations && a.destinations[d].grant == g {
      LiveGrantInForce(a, g);
      if (exists j :: j in gw.reservations && gw.reservations[j].grant == g) || !MayPrepare(a, a.destinations[d], now, trusted) {
        DeniedCode(db, g, d, k, now, trusted);
      } else {
        LateRefused(db, g, d, k, now, trusted);
      }
    }
  }

  lemma CommitRefused(db: Database, k: nat, now: int, trusted: bool)
    requires Inv(db) && CommitStart(db, k, now, trusted).Err?
    ensures match CommitStart(db, k, now, trusted).error
      case RequestReplayed => k in db.gateway.starts
      case RequestDenied => k !in db.gateway.starts && !MayBegin(db, k, now, trusted)
      case _ => false
  {
    BeginAccepts(db, k, now, trusted);
  }

  ghost predicate HoldsClaim(g: Gateway, k: nat, claimId: Option<nat>) {
    if k in g.claims then claimId == Some(g.claims[k].claimId) && g.claims[k].status == Claimed else claimId == None
  }

  /** A plausible report on an open, started request from whoever holds its claim. */
  ghost predicate ReportDue(g: Gateway, k: nat, m: Measurement, claimId: Option<nat>)
    requires Shaped(g)
  {
    CountsPlausible(m) && k in g.starts && k !in g.results && HoldsClaim(g, k, claimId) && g.sessions[k].status == Prepared
  }

  /** What a refused finalization says of the request, its claim and the report. */
  ghost predicate FinishRefusal(g: Gateway, k: nat, m: Measurement, claimId: Option<nat>, trusted: bool, code: Code)
    requires Shaped(g)
  {
    if ReportDue(g, k, m, claimId)
    then code == AccountingInvalid && (!trusted || !Tabulated(m, g.reservations[k].responseLimit, g.starts[k].committedAt, g.starts[k].deadline))
    else
      match code
      case AccountingInvalid => !CountsPlausible(m)
      case RequestNotFound => k !in g.starts
      case ResultReplayed => k in g.results
      case ClaimInvalid => !HoldsClaim(g, k, claimId)
      case RequestInactive => k in g.starts && g.sessions[k].status != Prepared
      case _ => false
  }

  /** The code of a report that is not due. */
  ghost function EarlyCode(g: Gateway, k: nat, m: Measurement, claimId: Option<nat>): Code {
    if !CountsPlausible(m) then AccountingInvalid
    else if k !in g.starts then RequestNotFound
    else if k in g.results then ResultReplayed
    else if !HoldsClaim(g, k, claimId) then ClaimInvalid
    else RequestInactive
  }

  lemma EarlyRefusal(db: Database, k: nat, m: Measurement, claimId: Option<nat>, trusted: bool)
    requires Referential(db) && !ReportDue(db.gateway, k, m, claimId)
    ensures FinalizeRequest(db, k, m, claimId, trusted) == Err(EarlyCode(db.gateway, k, m, claimId))
  {
  }

  lemma LateCode(db: Database, k: nat, m: Measurement, claimId: Option<nat>, trusted: bool)
    requires Referential(db) && ReportDue(db.gateway, k, m, claimId) && !db.gateway.starts[k].cancelled
    requires FinalizeRequest(db, k, m, claimId, trusted).Err?
    ensures FinalizeRequest(db, k, m, claimId, trusted).error == AccountingInvalid
  {
  }

  /** A refused finalization is refused for the reason its code names. */
  lemma FinalizeRefused(db: Database, k: nat, m: Measurement, claimId: Option<nat>, trusted: bool)
    requires Inv(db) && FinalizeRequest(db, k, m, claimId, trusted).Err?
    ensures FinishRefusal(db.gateway, k, m, claimId, trusted, FinalizeRequest(db, k, m, claimId, trusted).error)
  {
    var g := db.gateway;
    if ReportDue(g, k, m, claimId) {
      OpenStarted(g, k);
      LateCode(db, k, m, claimId, trusted);
      FinishAccepts(db, k, m, claimId, trusted);
      AcceptedMeaning(m, g.reservations[k].responseLimit, g.starts[k].committedAt, g.starts[k].deadline);
    } else {
      EarlyRefusal(db, k, m, claimId, trusted);
    }
  }

  lemma AbortCode(db: Database, k: nat, now: int, reasonGiven: bool)
    requires Referential(db) && AbortSession(db, k, now, reasonGiven).Err?
    requires !(reasonGiven && k in db.gateway.sessions && db.gateway.sessions[k].status == Prepared && k !in db.gateway.starts)
    ensures match AbortSession(db, k, now, reasonGiven).error
      case ReasonRequired => !reasonGiven
      case SessionNotFound => k !in db.gateway.sessions
      case SessionFinalized => k in db.gateway.sessions && db.gateway.sessions[k].status != Prepared
      case RequestCommitted => k in db.gateway.starts
      case _ => false
  {
  }

  /** A refused abort is refused for the reason its code names, never for the state of the buckets or the account. */
  lemma AbortRefused(db: Database, k: nat, now: int, reasonGiven: bool)
    requires Inv(db) && AbortSession(db, k, now, reasonGiven).Err?
    ensures match AbortSession(db, k, now, reasonGiven).error
      case ReasonRequired => !reasonGiven
      case SessionNotFound => k !in db.gateway.sessions
      case SessionFinalized => k in db.gateway.sessions && db.gateway.sessions[k].status != Prepared
      case RequestCommitted => k in db.gateway.starts
      case _ => false
  {
    AbortAccepts(db, k, now, reasonGiven);
    AbortCode(db, k, now, reasonGiven);
  }

  lemma ActivateRefused(db: Database, p: nat, now: int, trusted: bool, current: bool)
    requires Inv(db) && ActivatePolicy(db, p, now, trusted, current).Err?
    ensures var a := db.authority;
      match ActivatePolicy(db, p, now, trusted, current).error
      case NotFound => p !in a.policies
      case PolicyUnsupported => p in a.policies && a.policies[p].version == UnsupportedVersion
      case PolicyRevoked => p in a.policies && a.policies[p].revoked
      case PolicyAlreadyActive => p in a.policies && a.policies[p].activated
      case GlobalSafetyPaused => p in a.policies && a.policies[p].version == V2 && a.global != GlobalActive
      case EngagementInactive => p in a.policies && a.policies[p].version == V2 && a.engagements[a.policies[p].engagement].status in {Paused, Expired, Withdrawn}
      case PolicyNotCurrent => p in a.policies && a.policies[p].version == V2 && !current
      case Untrusted => !trusted
      case _ => false
  {
    if p in db.authority.policies { SweepSucceeds(db.gateway, Some(db.authority.policies[p].engagement), now); }
  }

  lemma MintRefused(db: Database, d: nat, g: nat, audience: Audience, now: int, intentExpiresAt: int,
                    timeoutSeconds: int, responseBytes: int, trusted: bool)
    requires Inv(db) && MintGrant(db, d, g, audience, now, intentExpiresAt, timeoutSeconds, responseBytes, trusted).Err?
    ensures var a := db.authority;
      match MintGrant(db, d, g, audience, now, intentExpiresAt, timeoutSeconds, responseBytes, trusted).error
      case NotFound => d !in a.decisions
      case GrantAuthorityInvalid => d in a.decisions && !(trusted && a.decisions[d].allowed && InForce(a, a.decisions[d].engagement, a.decisions[d].policy))
      case GrantExpired => d in a.decisions && (intentExpiresAt <= now || a.policies[a.decisions[d].policy].notAfter <= now)
      case IntegrityFailure => d in a.decisions && (g in a.grants || exists h :: h in a.grants && a.grants[h].intent == a.decisions[d].intent)
      case _ => false
  {
    var a := db.authority;
    if d in a.decisions && a.decisions[d].engagement in a.engagements { assert ActiveIsLive(a, a.decisions[d].engagement); }
  }
}
