/**
 * The tables behind action grants and gateway sessions, and the transactions on them.
 *
 * A transaction is a function from a database to either a new database or an error code; an error
 * leaves no trace, as the connection rolls back. Rows of the tables that carry a UNIQUE
 * reservation id (budget reservation, rate reservation, session, start, claim, result) share that
 * id as their key. Checks on signatures, contracts, hashes and provenance enter as the flag
 * `trusted`; unused identifiers and the clock enter as arguments. Instants are microseconds.
 */
module AuthorityModel {
  import opened Common
  import TestingSchedule
  import opened ResponseAccounting

  datatype GlobalStatus = GlobalActive | GlobalPaused | GlobalStopped

  datatype EngagementStatus = Draft | Approved | Active | Paused | Expired | Withdrawn

  datatype Engagement = Engagement(status: EngagementStatus, activePolicy: Option<nat>, epoch: nat, expiresAt: int)

  datatype SchemaVersion = V1 | V2 | UnsupportedVersion

  datatype Budgets = Budgets(totalRequests: int, connections: int, globalRate: real, hostRate: real,
                             burst: int, responseBytes: int)

  datatype Policy = Policy(engagement: nat, version: SchemaVersion, activated: bool, revoked: bool,
                           budgets: Budgets, schedule: Option<TestingSchedule.Schedule>, notAfter: int)

  datatype Decision = Decision(engagement: nat, policy: nat, intent: nat, allowed: bool)

  datatype Audience = Broker | EgressGateway

  datatype Grant = Grant(decision: nat, intent: nat, engagement: nat, policy: nat, epoch: nat, audience: Audience,
                         notBefore: int, expiresAt: int, timeoutSeconds: int, responseBytes: int,
                         used: bool, revoked: bool)

  datatype Attestation = Attestation(engagement: nat, policy: nat, expiresAt: int, valid: bool)

  datatype Destination = Destination(grant: nat, attestation: nat, host: string, allowed: bool)

  datatype Authority = Authority(global: GlobalStatus, engagements: map<nat, Engagement>, policies: map<nat, Policy>,
                                 decisions: map<nat, Decision>, grants: map<nat, Grant>,
                                 attestations: map<nat, Attestation>, destinations: map<nat, Destination>)

  datatype Account = Account(policy: nat, requestLimit: int, reserved: int, committed: int,
                             connectionLimit: int, active: int)

  datatype BucketKey = AllHosts | Host(name: string)

  datatype BucketId = BucketId(engagement: nat, key: BucketKey)

  datatype Bucket = Bucket(policy: nat, rate: real, capacity: int, tokens: real, updatedAt: int)

  datatype HoldStatus = Held | Spent | Released

  datatype Reservation = Reservation(engagement: nat, policy: nat, grant: nat, responseLimit: int, status: HoldStatus)

  datatype RateHold = RateHold(engagement: nat, policy: nat, host: string, status: HoldStatus)

  datatype SessionStatus = Prepared | Closed | Aborted

  datatype Session = Session(attestation: nat, status: SessionStatus)

  datatype Start = Start(committedAt: int, deadline: int, cancelled: bool)

  datatype ClaimStatus = Claimed | ClaimCompleted | Abandoned

  datatype Claim = Claim(claimId: nat, status: ClaimStatus)

  datatype Gateway = Gateway(accounts: map<nat, Account>, buckets: map<BucketId, Bucket>,
                             reservations: map<nat, Reservation>, rates: map<nat, RateHold>,
                             sessions: map<nat, Session>, starts: map<nat, Start>,
                             claims: map<nat, Claim>, results: map<nat, Measurement>)

  datatype Database = Database(authority: Authority, gateway: Gateway)

  datatype Code =
    | NotFound | Duplicate | Untrusted | PolicyUnsupported | PolicyRevoked | PolicyAlreadyActive | GlobalSafetyPaused
    | EngagementInactive | PolicyNotCurrent | ReasonRequired | ResumeDenied | AssessmentPaused | PolicyInactive
    | GrantAuthorityInvalid | GrantExpired | GrantReplayed | GrantRevoked | GrantNotYetValid | GrantBindingMismatch
    | AttestationInvalid | AuthorizationDenied
    | SessionDenied | SessionReplayed | BudgetExhausted | ClockUntrusted | RateLimited | RateStateInvalid
    | RequestDenied | RequestReplayed | RequestNotFound | ResultReplayed | ClaimInvalid | RequestInactive
    | AccountingInvalid | FixtureDenied | FixtureReplayed | SessionNotFound | SessionFinalized | RequestCommitted
    | IntegrityFailure

  type Attempt = Result<Database, Code>

  // ---- Foreign keys ----

  predicate Linked(a: Authority) {
    && (forall p :: p in a.policies ==> a.policies[p].engagement in a.engagements)
    && (forall d :: d in a.decisions ==> a.decisions[d].engagement in a.engagements && a.decisions[d].policy in a.policies)
    && (forall g :: g in a.grants ==> a.grants[g].engagement in a.engagements && a.grants[g].policy in a.policies)
    && (forall t :: t in a.attestations ==> a.attestations[t].engagement in a.engagements && a.attestations[t].policy in a.policies)
    && (forall d :: d in a.destinations ==> a.destinations[d].grant in a.grants && a.destinations[d].attestation in a.attestations)
  }

  predicate Shaped(g: Gateway) {
    && g.reservations.Keys == g.rates.Keys == g.sessions.Keys
    && g.results.Keys <= g.starts.Keys <= g.sessions.Keys
    && g.claims.Keys <= g.starts.Keys
  }

  predicate Joined(a: Authority, g: Gateway) {
    && (forall k :: k in g.reservations ==>
          && g.reservations[k].engagement in a.engagements
          && g.reservations[k].policy in a.policies
          && g.reservations[k].grant in a.grants)
    && (forall k :: k in g.sessions ==> g.sessions[k].attestation in a.attestations)
  }

  predicate Referential(db: Database) {
    Linked(db.authority) && Shaped(db.gateway) && Joined(db.authority, db.gateway)
  }

  // ---- Rate buckets ----

  const TOLERANCE: real := 0.000000001

  const SECOND: int := 1_000_000

  function Seconds(micros: int): real { micros as real / 1000000.0 }

  /** What a bucket gains in a stretch of time. */
  function Refill(micros: int, rate: real): real { Seconds(micros) * rate }

  /** Takes one token, refilling first; a bucket of another policy starts full. */
  function ReserveBucket(buckets: map<BucketId, Bucket>, id: BucketId, policy: nat, rate: real, capacity: int, now: int)
    : Result<map<BucketId, Bucket>, Code>
  {
    var unused := id !in buckets || buckets[id].policy != policy;
    if !unused && now < buckets[id].updatedAt then Err(ClockUntrusted)
    else
      var tokens :=
        if unused then capacity as real
        else MinReal(capacity as real, buckets[id].tokens + Refill(now - buckets[id].updatedAt, rate));
      if tokens + TOLERANCE < 1.0 then Err(RateLimited)
      else if tokens - 1.0 < 0.0 then Err(IntegrityFailure)
      else Ok(buckets[id := Bucket(policy, rate, capacity, tokens - 1.0, now)])
  }

  /** `n` tokens handed back at `now`, or at the bucket's own time when that is later. */
  function Refund(b: Bucket, n: nat, now: int): Bucket {
    if n == 0 then b
    else
      var at := Max(now, b.updatedAt);
      b.(tokens := MinReal(b.capacity as real, b.tokens + Refill(at - b.updatedAt, b.rate) + n as real), updatedAt := at)
  }

  predicate Touches(hold: RateHold, id: BucketId) {
    hold.engagement == id.engagement && (id.key == AllHosts || id.key == Host(hold.host))
  }

  /** The bucket a hold is released into still belongs to the policy it was taken under. */
  predicate BucketMatches(buckets: map<BucketId, Bucket>, hold: RateHold, key: BucketKey) {
    BucketId(hold.engagement, key) in buckets && buckets[BucketId(hold.engagement, key)].policy == hold.policy
  }

  predicate BucketsMatch(buckets: map<BucketId, Bucket>, hold: RateHold) {
    BucketMatches(buckets, hold, AllHosts) && BucketMatches(buckets, hold, Host(hold.host))
  }

  function ReleaseOne(buckets: map<BucketId, Bucket>, hold: RateHold, now: int): map<BucketId, Bucket> {
    map id | id in buckets :: Refund(buckets[id], if Touches(hold, id) then 1 else 0, now)
  }

  // ---- The abort sweep ----

  predicate InScope(scope: Option<nat>, engagement: nat) {
    scope == None || scope == Some(engagement)
  }

  /** Prepared sessions of an engagement. */
  function Open(g: Gateway, e: nat): set<nat>
    requires Shaped(g)
  {
    set k | k in g.sessions && g.sessions[k].status == Prepared && g.reservations[k].engagement == e
  }

  /** Prepared sessions of an engagement whose request has not started. */
  function Waiting(g: Gateway, e: nat): set<nat>
    requires Shaped(g)
  {
    set k | k in Open(g, e) && k !in g.starts
  }

  /** Request starts of an engagement, whatever became of them. */
  function Begun(g: Gateway, e: nat): set<nat>
    requires Shaped(g)
  {
    set k | k in g.starts && g.reservations[k].engagement == e
  }

  /** Sessions whose held rate tokens the sweep returns. */
  function Refundable(g: Gateway, scope: Option<nat>): set<nat>
    requires Shaped(g)
  {
    set k | k in g.sessions && g.sessions[k].status == Prepared && k !in g.starts
            && InScope(scope, g.reservations[k].engagement) && g.rates[k].status == Held
  }

  function RefundsInto(g: Gateway, keys: set<nat>, id: BucketId): set<nat>
    requires Shaped(g) && keys <= g.sessions.Keys
  {
    set k | k in keys && Touches(g.rates[k], id)
  }

  function RefundBuckets(g: Gateway, keys: set<nat>, now: int): map<BucketId, Bucket>
    requires Shaped(g) && keys <= g.sessions.Keys
  {
    map id | id in g.buckets :: Refund(g.buckets[id], |RefundsInto(g, keys, id)|, now)
  }

  /** Some held reservation would be returned to a bucket that is missing or of another policy. */
  predicate RateStateBroken(g: Gateway, scope: Option<nat>)
    requires Shaped(g)
  {
    exists k :: k in Refundable(g, scope) && !BucketsMatch(g.buckets, g.rates[k])
  }

  function SweptAccount(g: Gateway, e: nat): Account
    requires Shaped(g) && e in g.accounts
  {
    var acc := g.accounts[e];
    acc.(reserved := acc.reserved - |Waiting(g, e)|, active := acc.active - |Open(g, e)|)
  }

  predicate AccountsUnderflow(g: Gateway, scope: Option<nat>)
    requires Shaped(g)
  {
    exists e :: e in g.accounts && InScope(scope, e) && (SweptAccount(g, e).reserved < 0 || SweptAccount(g, e).active < 0)
  }

  /** All tables after every live session in scope has been abandoned. */
  function Swept(g: Gateway, scope: Option<nat>, now: int): Gateway
    requires Shaped(g)
  {
    var refundable := Refundable(g, scope);
    Gateway(
      map e | e in g.accounts :: if InScope(scope, e) then SweptAccount(g, e) else g.accounts[e],
      RefundBuckets(g, refundable, now),
      map k | k in g.reservations ::
        if g.reservations[k].status == Held && InScope(scope, g.reservations[k].engagement)
        then g.reservations[k].(status := Released) else g.reservations[k],
      map k | k in g.rates :: if k in refundable then g.rates[k].(status := Released) else g.rates[k],
      map k | k in g.sessions ::
        if g.sessions[k].status == Prepared && InScope(scope, g.reservations[k].engagement)
        then g.sessions[k].(status := Aborted) else g.sessions[k],
      map k | k in g.starts ::
        if InScope(scope, g.reservations[k].engagement) then g.starts[k].(cancelled := true) else g.starts[k],
      map k | k in g.claims ::
        if g.claims[k].status == Claimed && InScope(scope, g.reservations[k].engagement)
        then g.claims[k].(status := Abandoned) else g.claims[k],
      g.results)
  }

  function Sweep(g: Gateway, scope: Option<nat>, now: int): Result<Gateway, Code>
    requires Shaped(g)
  {
    if RateStateBroken(g, scope) then Err(RateStateInvalid)
    else if AccountsUnderflow(g, scope) then Err(IntegrityFailure)
    else Ok(Swept(g, scope, now))
  }

  // ---- Authority updates shared by the safety operations ----

  function RevokeGrants(a: Authority, scope: Option<nat>): Authority {
    a.(grants := map g | g in a.grants ::
         if InScope(scope, a.grants[g].engagement) && !a.grants[g].used then a.grants[g].(revoked := true) else a.grants[g])
  }

  function InvalidateAttestations(a: Authority, scope: Option<nat>): Authority {
    a.(attestations := map t | t in a.attestations ::
         if InScope(scope, a.attestations[t].engagement) then a.attestations[t].(valid := false) else a.attestations[t])
  }

  /** Active engagements become paused and move to the next revocation epoch. */
  function PauseActive(a: Authority): Authority {
    a.(engagements := map e | e in a.engagements ::
         if a.engagements[e].status == Active
         then a.engagements[e].(status := Paused, epoch := a.engagements[e].epoch + 1)
         else a.engagements[e])
  }

  function WithSweep(a: Authority, g: Gateway, scope: Option<nat>, now: int): Attempt
    requires Shaped(g)
  {
    match Sweep(g, scope, now)
    case Ok(swept) => Ok(Database(a, swept))
    case Err(code) => Err(code)
  }

  // ---- Engagements, policies and decisions ----

  function CreateEngagement(db: Database, e: nat, expiresAt: int): (r: Attempt)
    ensures r.Ok? ==> r.value.gateway == db.gateway
  {
    if e in db.authority.engagements then Err(Duplicate)
    else Ok(db.(authority := db.authority.(engagements := db.authority.engagements[e := Engagement(Draft, None, 0, expiresAt)])))
  }

  function CompilePolicy(db: Database, p: nat, policy: Policy): (r: Attempt)
    ensures r.Ok? ==> r.value.gateway == db.gateway
  {
    if policy.engagement !in db.authority.engagements then Err(NotFound)
    else if p in db.authority.policies then Err(Duplicate)
    else Ok(db.(authority := db.authority.(policies := db.authority.policies[p := policy.(activated := false, revoked := false)])))
  }

  predicate Live(p: Policy) { p.activated && !p.revoked }

  /** The engagement's other policy that is activated and not revoked, if there is one. */
  predicate Replaced(a: Authority, q: nat, p: nat)
    requires p in a.policies
  {
    q in a.policies && q != p && Live(a.policies[q]) && a.policies[q].engagement == a.policies[p].engagement
  }

  function RetirePrevious(a: Authority, p: nat): Authority
    requires p in a.policies && a.policies[p].engagement in a.engagements
  {
    var e := a.policies[p].engagement;
    if !exists q :: q in a.policies && Replaced(a, q, p) then a
    else
      RevokeGrants(a, Some(e)).(
        policies := map q | q in a.policies :: if Replaced(a, q, p) then a.policies[q].(revoked := true) else a.policies[q],
        engagements := a.engagements[e := a.engagements[e].(epoch := a.engagements[e].epoch + 1)])
  }

  function InstallPolicy(a: Authority, p: nat): Authority
    requires p in a.policies && a.policies[p].engagement in a.engagements
  {
    var e := a.policies[p].engagement;
    InvalidateAttestations(
      a.(policies := a.policies[p := a.policies[p].(activated := true)],
         engagements := a.engagements[e := a.engagements[e].(status := Active, activePolicy := Some(p))]),
      Some(e))
  }

  function ActivatedAuthority(a: Authority, p: nat): Authority
    requires p in a.policies && a.policies[p].engagement in a.engagements
  {
    InstallPolicy(RetirePrevious(a, p), p)
  }

  /** `current` stands for the newest valid manifest and the validity window, checked for version 2 only. */
  function ActivatePolicy(db: Database, p: nat, now: int, trusted: bool, current: bool): Attempt
    requires Referential(db)
  {
    var a := db.authority;
    if p !in a.policies then Err(NotFound)
    else
      var policy := a.policies[p];
      var engagement := a.engagements[policy.engagement];
      if policy.version == UnsupportedVersion then Err(PolicyUnsupported)
      else if policy.revoked then Err(PolicyRevoked)
      else if policy.activated then Err(PolicyAlreadyActive)
      else if policy.version == V2 && a.global != GlobalActive then Err(GlobalSafetyPaused)
      else if policy.version == V2 && engagement.status in {Paused, Expired, Withdrawn} then Err(EngagementInactive)
      else if policy.version == V2 && !current then Err(PolicyNotCurrent)
      else if !trusted then Err(Untrusted)
      else WithSweep(ActivatedAuthority(a, p), db.gateway, Some(policy.engagement), now)
  }

  function WithdrawnAuthority(a: Authority, p: nat): Authority
    requires p in a.policies && a.policies[p].engagement in a.engagements
  {
    var e := a.policies[p].engagement;
    InvalidateAttestations(
      RevokeGrants(
        a.(policies := a.policies[p := a.policies[p].(revoked := true)],
           engagements := a.engagements[e := a.engagements[e].(status := Withdrawn, activePolicy := None,
                                                               epoch := a.engagements[e].epoch + 1)]),
        Some(e)),
      Some(e))
  }

  /** A version 2 bundle may only be revoked while it is live. */
  function RevokePolicy(db: Database, p: nat, now: int, reasonGiven: bool): Attempt
    requires Referential(db)
  {
    var a := db.authority;
    if !reasonGiven then Err(ReasonRequired)
    else if p !in a.policies then Err(NotFound)
    else if a.policies[p].version == V2 && !Live(a.policies[p]) then Err(IntegrityFailure)
    else WithSweep(WithdrawnAuthority(a, p), db.gateway, Some(a.policies[p].engagement), now)
  }

  /** Stores the evaluator's verdict for an intent; an existing decision is kept. */
  function EvaluateIntent(db: Database, e: nat, d: nat, intent: nat, allowed: bool, trusted: bool): (r: Attempt)
    ensures r.Ok? ==> r.value.gateway == db.gateway
  {
    var a := db.authority;
    if e !in a.engagements || a.engagements[e].activePolicy == None then Err(PolicyInactive)
    else if a.engagements[e].status != Active then Err(AssessmentPaused)
    else if a.global != GlobalActive then Err(GlobalSafetyPaused)
    else
      var p := a.engagements[e].activePolicy.value;
      if p !in a.policies || a.policies[p].version != V1 then Err(PolicyUnsupported)
      else if !trusted then Err(Untrusted)
      else if d in a.decisions then Ok(db)
      else Ok(db.(authority := a.(decisions := a.decisions[d := Decision(e, p, intent, allowed)])))
  }

  // ---- Grants ----

  function MintGrant(db: Database, d: nat, g: nat, audience: Audience, now: int, intentExpiresAt: int,
                     timeoutSeconds: int, responseBytes: int, trusted: bool): (r: Attempt)
    requires Referential(db)
    ensures r.Ok? ==> r.value.gateway == db.gateway
  {
    var a := db.authority;
    if d !in a.decisions then Err(NotFound)
    else
      var decision := a.decisions[d];
      var policy := a.policies[decision.policy];
      var engagement := a.engagements[decision.engagement];
      var expires := Min(now + 30 * SECOND, Min(intentExpiresAt, policy.notAfter));
      if !(trusted && decision.allowed && engagement.activePolicy == Some(decision.policy) && Live(policy)
           && engagement.status == Active && a.global == GlobalActive)
      then Err(GrantAuthorityInvalid)
      else if exists h :: h in a.grants && a.grants[h].decision == d then Ok(db)
      else if expires <= now then Err(GrantExpired)
      else if g in a.grants || exists h :: h in a.grants && a.grants[h].intent == decision.intent then Err(IntegrityFailure)
      else Ok(db.(authority := a.(grants := a.grants[g :=
        Grant(d, decision.intent, decision.engagement, decision.policy, engagement.epoch, audience, now, expires,
              Min(timeoutSeconds, 300), Min(responseBytes, policy.budgets.responseBytes), false, false)])))
  }

  /** The engagement, policy and epoch a grant was issued under are all still in force. */
  predicate StillAuthorized(a: Authority, grant: Grant)
    requires grant.engagement in a.engagements && grant.policy in a.policies
  {
    && a.engagements[grant.engagement].activePolicy == Some(grant.policy)
    && !a.policies[grant.policy].revoked
    && a.engagements[grant.engagement].status == Active
    && a.global == GlobalActive
    && grant.epoch == a.engagements[grant.engagement].epoch
  }

  function ConsumeGrant(db: Database, g: nat, audience: Audience, now: int, trusted: bool): (r: Attempt)
    requires Referential(db)
    ensures r.Ok? ==> r.value.gateway == db.gateway
  {
    var a := db.authority;
    if g !in a.grants then Err(NotFound)
    else
      var grant := a.grants[g];
      if !trusted || audience != grant.audience then Err(GrantBindingMismatch)
      else if grant.used then Err(GrantReplayed)
      else if grant.revoked then Err(GrantRevoked)
      else if grant.notBefore > now then Err(GrantNotYetValid)
      else if grant.expiresAt <= now then Err(GrantExpired)
      else if !StillAuthorized(a, grant) || !a.policies[grant.policy].activated then Err(GrantRevoked)
      else Ok(db.(authority := a.(grants := a.grants[g := grant.(used := true)])))
  }

  // ---- Network evidence ----

  function RecordAttestation(db: Database, t: nat, e: nat, expiresAt: int, trusted: bool): (r: Attempt)
    ensures r.Ok? ==> r.value.gateway == db.gateway
  {
    var a := db.authority;
    if e !in a.engagements || a.engagements[e].activePolicy == None then Err(AttestationInvalid)
    else
      var p := a.engagements[e].activePolicy.value;
      if p !in a.policies || !Live(a.policies[p]) || a.engagements[e].status != Active || a.global != GlobalActive
      then Err(AttestationInvalid)
      else if !trusted then Err(Untrusted)
      else if t in a.attestations then Err(IntegrityFailure)
      else
        var cleared := InvalidateAttestations(a, Some(e));
        Ok(db.(authority := cleared.(attestations := cleared.attestations[t := Attestation(e, p, expiresAt, true)])))
  }

  function AuthorizeDestination(db: Database, d: nat, g: nat, t: nat, host: string, allowed: bool, now: int, trusted: bool): (r: Attempt)
    requires Referential(db)
    ensures r.Ok? ==> r.value.gateway == db.gateway
  {
    var a := db.authority;
    if g !in a.grants || t !in a.attestations then Err(AuthorizationDenied)
    else
      var grant := a.grants[g];
      if !(trusted && grant.notBefore <= now < grant.expiresAt && !grant.used && !grant.revoked && StillAuthorized(a, grant)
           && grant.audience == EgressGateway && a.attestations[t].valid
           && a.attestations[t].engagement == grant.engagement && a.attestations[t].policy == grant.policy)
      then Err(AuthorizationDenied)
      else if d in a.destinations then Err(IntegrityFailure)
      else Ok(db.(authority := a.(destinations := a.destinations[d := Destination(g, t, host, allowed)])))
  }

  // ---- Gateway sessions ----

  predicate UsableBudgets(b: Budgets) {
    b.totalRequests >= 1 && b.connections >= 1 && b.globalRate > 0.0 && b.hostRate > 0.0 && b.burst >= 1
  }

  /** The account with this policy's limits; a new engagement starts from zero. */
  function Upserted(g: Gateway, e: nat, p: nat, b: Budgets): Account {
    if e in g.accounts
    then g.accounts[e].(policy := p, requestLimit := b.totalRequests, connectionLimit := b.connections)
    else Account(p, b.totalRequests, 0, 0, b.connections, 0)
  }

  predicate MayPrepare(a: Authority, destination: Destination, now: int, trusted: bool)
    requires Linked(a) && destination.grant in a.grants && destination.attestation in a.attestations
  {
    var grant := a.grants[destination.grant];
    && trusted && destination.allowed && grant.audience == EgressGateway && !grant.used && !grant.revoked
    && grant.notBefore <= now < grant.expiresAt && StillAuthorized(a, grant)
    && a.attestations[destination.attestation].valid
    && UsableBudgets(a.policies[grant.policy].budgets) && destination.host != ""
  }

  function TakeTokens(buckets: map<BucketId, Bucket>, e: nat, p: nat, host: string, b: Budgets, now: int)
    : Result<map<BucketId, Bucket>, Code>
  {
    match ReserveBucket(buckets, BucketId(e, AllHosts), p, b.globalRate, b.burst, now)
    case Err(code) => Err(code)
    case Ok(debited) => ReserveBucket(debited, BucketId(e, Host(host)), p, b.hostRate, b.burst, now)
  }

  /** Reserves the request, the connection and the rate tokens, and records the session. */
  function OpenSession(gw: Gateway, g: nat, grant: Grant, destination: Destination, b: Budgets, k: nat, now: int): Result<Gateway, Code> {
    var acc := Upserted(gw, grant.engagement, grant.policy, b);
    if !(acc.reserved + acc.committed + 1 <= acc.requestLimit && acc.active + 1 <= acc.connectionLimit)
    then Err(BudgetExhausted)
    else
      match TakeTokens(gw.buckets, grant.engagement, grant.policy, destination.host, b, now)
      case Err(code) => Err(code)
      case Ok(buckets) =>
        var limit := Min(b.responseBytes, grant.responseBytes);
        if k in gw.sessions || limit <= 0 then Err(SessionReplayed)
        else Ok(gw.(
          accounts := gw.accounts[grant.engagement := acc.(reserved := acc.reserved + 1, active := acc.active + 1)],
          buckets := buckets,
          reservations := gw.reservations[k := Reservation(grant.engagement, grant.policy, g, limit, Held)],
          rates := gw.rates[k := RateHold(grant.engagement, grant.policy, destination.host, Held)],
          sessions := gw.sessions[k := Session(destination.attestation, Prepared)]))
  }

  function PrepareSession(db: Database, g: nat, d: nat, k: nat, now: int, trusted: bool): Attempt
    requires Referential(db)
  {
    var a, gw := db.authority, db.gateway;
    if g !in a.grants || d !in a.destinations || a.destinations[d].grant != g then Err(SessionDenied)
    else if exists j :: j in gw.reservations && gw.reservations[j].grant == g then Err(SessionReplayed)
    else if !MayPrepare(a, a.destinations[d], now, trusted) then Err(SessionDenied)
    else
      match OpenSession(gw, g, a.grants[g], a.destinations[d], a.policies[a.grants[g].policy].budgets, k, now)
      case Err(code) => Err(code)
      case Ok(tables) => Ok(db.(gateway := tables))
  }

  /** The earliest of the timeout, the expiries involved and the schedule's own deadline. */
  function RequestDeadline(grant: Grant, engagement: Engagement, attestation: Attestation,
                           scheduled: Option<int>, now: int): int
  {
    var base := Min(now + grant.timeoutSeconds * SECOND, Min(grant.expiresAt, Min(engagement.expiresAt, attestation.expiresAt)));
    if scheduled.Some? then Min(base, scheduled.value) else base
  }

  function ScheduledDeadline(policy: Policy, now: int): Option<int> {
    if policy.schedule.None? then None else TestingSchedule.Deadline(policy.schedule.value, now)
  }

  predicate MayStart(a: Authority, g: Gateway, k: nat, deadline: int, now: int, trusted: bool)
    requires Linked(a) && Shaped(g) && Joined(a, g) && k in g.sessions
  {
    var r := g.reservations[k];
    var grant := a.grants[r.grant];
    var policy, engagement := a.policies[r.policy], a.engagements[r.engagement];
    && trusted && g.sessions[k].status == Prepared && r.status == Held && g.rates[k].status == Held
    && !grant.used && !grant.revoked && grant.audience == EgressGateway && grant.notBefore <= now < deadline
    && a.attestations[g.sessions[k].attestation].valid
    && engagement.activePolicy == Some(r.policy) && Live(policy) && grant.epoch == engagement.epoch
    && engagement.status == Active && a.global == GlobalActive
    && (policy.schedule.Some? ==> ScheduledDeadline(policy, now).Some?)
  }

  /** Uses the grant up and turns the held reservation into a started request. */
  function StartRequest(a: Authority, g: Gateway, k: nat, start: Start): Attempt
    requires k in g.reservations && k in g.rates && g.reservations[k].grant in a.grants
  {
    var r := g.reservations[k];
    if r.engagement !in g.accounts || g.accounts[r.engagement].reserved < 1 then Err(RequestDenied)
    else
      var acc := g.accounts[r.engagement];
      Ok(Database(
        a.(grants := a.grants[r.grant := a.grants[r.grant].(used := true)]),
        g.(accounts := g.accounts[r.engagement := acc.(reserved := acc.reserved - 1, committed := acc.committed + 1)],
           reservations := g.reservations[k := r.(status := Spent)],
           rates := g.rates[k := g.rates[k].(status := Spent)],
           starts := g.starts[k := start])))
  }

  function CommitStart(db: Database, k: nat, now: int, trusted: bool): Attempt
    requires Referential(db)
  {
    var a, g := db.authority, db.gateway;
    if k !in g.sessions then Err(RequestDenied)
    else if k in g.starts then Err(RequestReplayed)
    else
      var r := g.reservations[k];
      var deadline := RequestDeadline(a.grants[r.grant], a.engagements[r.engagement],
                                      a.attestations[g.sessions[k].attestation],
                                      ScheduledDeadline(a.policies[r.policy], now), now);
      if !MayStart(a, g, k, deadline, now, trusted) then Err(RequestDenied)
      else StartRequest(a, g, k, Start(now, deadline, false))
  }

  /** Closes the session, gives its connection back and records the result. */
  function CloseRequest(db: Database, k: nat, m: Measurement): Attempt
    requires k in db.gateway.reservations && k in db.gateway.sessions
  {
    var g := db.gateway;
    var e := g.reservations[k].engagement;
    if e !in g.accounts || g.accounts[e].active < 1 then Err(AccountingInvalid)
    else Ok(db.(gateway := g.(
      accounts := g.accounts[e := g.accounts[e].(active := g.accounts[e].active - 1)],
      sessions := g.sessions[k := g.sessions[k].(status := Closed)],
      claims := if k in g.claims then g.claims[k := g.claims[k].(status := ClaimCompleted)] else g.claims,
      results := g.results[k := m])))
  }

  function FinalizeRequest(db: Database, k: nat, m: Measurement, claimId: Option<nat>, trusted: bool): Attempt
    requires Referential(db)
  {
    var g := db.gateway;
    if !CountsPlausible(m) then Err(AccountingInvalid)
    else if k !in g.starts then Err(RequestNotFound)
    else if k in g.results then Err(ResultReplayed)
    else if k in g.claims && (claimId != Some(g.claims[k].claimId) || g.claims[k].status != Claimed) then Err(ClaimInvalid)
    else if k !in g.claims && claimId != None then Err(ClaimInvalid)
    else if g.starts[k].cancelled || g.sessions[k].status != Prepared then Err(RequestInactive)
    else
      if !Accepted(m, g.reservations[k].responseLimit, g.starts[k].committedAt, g.starts[k].deadline) || !trusted
      then Err(AccountingInvalid)
      else CloseRequest(db, k, m)
  }

  /** `contained` stands for the runtime, containment and fixed fixture-target checks. */
  function ClaimFixture(db: Database, k: nat, claimId: nat, now: int, contained: bool): Attempt
    requires Referential(db)
  {
    var a, g := db.authority, db.gateway;
    if !contained || k !in g.starts then Err(FixtureDenied)
    else if k in g.claims || k in g.results then Err(FixtureReplayed)
    else
      var r := g.reservations[k];
      if !(!g.starts[k].cancelled && g.sessions[k].status == Prepared && r.status == Spent && g.rates[k].status == Spent
           && a.grants[r.grant].used && !a.grants[r.grant].revoked && now < g.starts[k].deadline
           && 1 <= r.responseLimit <= 1_048_576)
      then Err(FixtureDenied)
      else Ok(db.(gateway := g.(claims := g.claims[k := Claim(claimId, Claimed)])))
  }

  /** Gives the request, the connection and both tokens back, and aborts the session. */
  function ReleaseSession(db: Database, k: nat, now: int): Attempt
    requires k in db.gateway.reservations && k in db.gateway.rates && k in db.gateway.sessions
  {
    var g := db.gateway;
    var r, hold := g.reservations[k], g.rates[k];
    if hold.status == Held && !BucketsMatch(g.buckets, hold) then Err(RateStateInvalid)
    else if r.engagement in g.accounts && (g.accounts[r.engagement].reserved < 1 || g.accounts[r.engagement].active < 1)
    then Err(IntegrityFailure)
    else Ok(db.(gateway := g.(
      accounts := if r.engagement !in g.accounts then g.accounts
                  else g.accounts[r.engagement := g.accounts[r.engagement].(
                         reserved := g.accounts[r.engagement].reserved - 1, active := g.accounts[r.engagement].active - 1)],
      buckets := if hold.status == Held then ReleaseOne(g.buckets, hold, now) else g.buckets,
      rates := if hold.status == Held then g.rates[k := hold.(status := Released)] else g.rates,
      reservations := if r.status == Held then g.reservations[k := r.(status := Released)] else g.reservations,
      sessions := g.sessions[k := g.sessions[k].(status := Aborted)])))
  }

  function AbortSession(db: Database, k: nat, now: int, reasonGiven: bool): Attempt
    requires Referential(db)
  {
    var g := db.gateway;
    if !reasonGiven then Err(ReasonRequired)
    else if k !in g.sessions then Err(SessionNotFound)
    else if g.sessions[k].status != Prepared then Err(SessionFinalized)
    else if k in g.starts then Err(RequestCommitted)
    else ReleaseSession(db, k, now)
  }

  // ---- Safety state ----

  function HaltedAuthority(a: Authority, status: GlobalStatus): Authority {
    InvalidateAttestations(PauseActive(RevokeGrants(a, None)), None).(global := status)
  }

  /** Startup recovery, and a global pause or stop, withdraw every live authority. */
  function HaltEverything(db: Database, status: GlobalStatus, now: int): Attempt
    requires Referential(db)
  {
    WithSweep(HaltedAuthority(db.authority, status), db.gateway, None, now)
  }

  function SetGlobalSafety(db: Database, status: GlobalStatus, now: int, reasonGiven: bool): Attempt
    requires Referential(db)
  {
    if !reasonGiven then Err(ReasonRequired)
    else if status == GlobalActive then Ok(db.(authority := db.authority.(global := GlobalActive)))
    else HaltEverything(db, status, now)
  }

  function RecoverStartup(db: Database, now: int): Attempt
    requires Referential(db)
  {
    HaltEverything(db, GlobalPaused, now)
  }

  function PausedAuthority(a: Authority, e: nat): Authority
    requires e in a.engagements
  {
    var paused := a.engagements[e].(status := Paused, epoch := a.engagements[e].epoch + 1);
    InvalidateAttestations(RevokeGrants(a, Some(e)).(engagements := a.engagements[e := paused]), Some(e))
  }

  function PauseAssessment(db: Database, e: nat, now: int, reasonGiven: bool): Attempt
    requires Referential(db)
  {
    var a := db.authority;
    if !reasonGiven then Err(ReasonRequired)
    else if e !in a.engagements then Err(NotFound)
    else WithSweep(PausedAuthority(a, e), db.gateway, Some(e), now)
  }

  function ResumeAssessment(db: Database, e: nat, now: int, reasonGiven: bool, trusted: bool): (r: Attempt)
    ensures r.Ok? ==> r.value.gateway == db.gateway
  {
    var a := db.authority;
    if !reasonGiven then Err(ReasonRequired)
    else if e !in a.engagements then Err(NotFound)
    else
      var engagement := a.engagements[e];
      if a.global != GlobalActive || engagement.activePolicy == None then Err(ResumeDenied)
      else
        var p := engagement.activePolicy.value;
        if p !in a.policies || !Live(a.policies[p]) || a.policies[p].notAfter <= now || !trusted then Err(ResumeDenied)
        else Ok(db.(authority := a.(engagements := a.engagements[e := engagement.(status := Active)])))
  }

  // ---- Steps and runs ----

  datatype Op =
    | DoCreateEngagement(engagement: nat, expiresAt: int)
    | DoCompilePolicy(policy: nat, row: Policy)
    | DoActivatePolicy(policy: nat, now: int, trusted: bool, current: bool)
    | DoRevokePolicy(policy: nat, now: int, reasonGiven: bool)
    | DoEvaluateIntent(engagement: nat, decision: nat, intent: nat, allowed: bool, trusted: bool)
    | DoMintGrant(decision: nat, grant: nat, audience: Audience, now: int, intentExpiresAt: int,
                  timeoutSeconds: int, responseBytes: int, trusted: bool)
    | DoConsumeGrant(grant: nat, audience: Audience, now: int, trusted: bool)
    | DoRecordAttestation(attestation: nat, engagement: nat, expiresAt: int, trusted: bool)
    | DoAuthorizeDestination(destination: nat, grant: nat, attestation: nat, host: string, allowed: bool, now: int, trusted: bool)
    | DoPrepareSession(grant: nat, destination: nat, key: nat, now: int, trusted: bool)
    | DoCommitStart(key: nat, now: int, trusted: bool)
    | DoFinalizeRequest(key: nat, m: Measurement, claimId: Option<nat>, trusted: bool)
    | DoClaimFixture(key: nat, claim: nat, now: int, contained: bool)
    | DoAbortSession(key: nat, now: int, reasonGiven: bool)
    | DoSetGlobalSafety(status: GlobalStatus, now: int, reasonGiven: bool)
    | DoRecoverStartup(now: int)
    | DoPauseAssessment(engagement: nat, now: int, reasonGiven: bool)
    | DoResumeAssessment(engagement: nat, now: int, reasonGiven: bool, trusted: bool)

  function Step(db: Database, op: Op): Attempt
    requires Referential(db)
  {
    match op
    case DoCreateEngagement(e, expiresAt) => CreateEngagement(db, e, expiresAt)
    case DoCompilePolicy(p, row) => CompilePolicy(db, p, row)
    case DoActivatePolicy(p, now, trusted, current) => ActivatePolicy(db, p, now, trusted, current)
    case DoRevokePolicy(p, now, reasonGiven) => RevokePolicy(db, p, now, reasonGiven)
    case DoEvaluateIntent(e, d, intent, allowed, trusted) => EvaluateIntent(db, e, d, intent, allowed, trusted)
    case DoMintGrant(d, g, audience, now, intentExpiresAt, timeoutSeconds, responseBytes, trusted) =>
      MintGrant(db, d, g, audience, now, intentExpiresAt, timeoutSeconds, responseBytes, trusted)
    case DoConsumeGrant(g, audience, now, trusted) => ConsumeGrant(db, g, audience, now, trusted)
    case DoRecordAttestation(t, e, expiresAt, trusted) => RecordAttestation(db, t, e, expiresAt, trusted)
    case DoAuthorizeDestination(d, g, t, host, allowed, now, trusted) => AuthorizeDestination(db, d, g, t, host, allowed, now, trusted)
    case DoPrepareSession(g, d, k, now, trusted) => PrepareSession(db, g, d, k, now, trusted)
    case DoCommitStart(k, now, trusted) => CommitStart(db, k, now, trusted)
    case DoFinalizeRequest(k, m, claimId, trusted) => FinalizeRequest(db, k, m, claimId, trusted)
    case DoClaimFixture(k, claimId, now, contained) => ClaimFixture(db, k, claimId, now, contained)
    case DoAbortSession(k, now, reasonGiven) => AbortSession(db, k, now, reasonGiven)
    case DoSetGlobalSafety(status, now, reasonGiven) => SetGlobalSafety(db, status, now, reasonGiven)
    case DoRecoverStartup(now) => RecoverStartup(db, now)
    case DoPauseAssessment(e, now, reasonGiven) => PauseAssessment(db, e, now, reasonGiven)
    case DoResumeAssessment(e, now, reasonGiven, trusted) => ResumeAssessment(db, e, now, reasonGiven, trusted)
  }

  /** The database after an operation that may have been refused. */
  function After(db: Database, op: Op): Database
    requires Referential(db)
  {
    match Step(db, op)
    case Ok(next) => next
    case Err(_) => db
  }

  const EMPTY: Database :=
    Database(Authority(GlobalActive, map[], map[], map[], map[], map[], map[]),
             Gateway(map[], map[], map[], map[], map[], map[], map[], map[]))
}
