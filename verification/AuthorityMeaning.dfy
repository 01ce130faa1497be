/**
 * When the grant and session operations succeed in a state that satisfies the invariant, and what they
 * do, said in terms of sessions, live grants and token levels rather than of the checks they make.
 */
module AuthorityMeaning {
  import opened Common
  import opened AuthorityModel
  import opened GatewayInvariant
  import opened AuthorityInvariant
  import opened AuthorityRuns
  import opened TokenLevels
  import opened RateTheorem
  import opened GatewaySweep
  import TestingSchedule
  import opened ResponseAccounting

  // ---- Tokens ----

  /** The tokens policy `p` finds in a bucket at `now`: a bucket of another policy counts as full. */
  ghost function Standing(buckets: map<BucketId, Bucket>, id: BucketId, p: nat, capacity: int, now: int): real {
    if id in buckets && buckets[id].policy == p then Level(buckets[id], now) else capacity as real
  }

  ghost predicate CanPay(buckets: map<BucketId, Bucket>, id: BucketId, p: nat, capacity: int, now: int) {
    && (id in buckets && buckets[id].policy == p ==> buckets[id].updatedAt <= now)
    && Standing(buckets, id, p, capacity, now) >= 1.0
  }

  /** Exactly one token was taken, and the bucket belongs to the policy. */
  ghost predicate Paid(buckets: map<BucketId, Bucket>, buckets': map<BucketId, Bucket>, id: BucketId, p: nat, capacity: int, now: int) {
    && id in buckets' && buckets'[id].policy == p && buckets'[id].updatedAt == now
    && Level(buckets'[id], now) == Standing(buckets, id, p, capacity, now) - 1.0
    && 0.0 <= buckets'[id].tokens <= capacity as real - 1.0
  }

  /** A bucket of the policy carries its limits. */
  ghost predicate Carrying(buckets: map<BucketId, Bucket>, id: BucketId, p: nat, rate: real, capacity: int) {
    id in buckets && buckets[id].policy == p ==> buckets[id].rate == rate && buckets[id].capacity == capacity && BucketBounded(buckets[id])
  }

  /** A reservation succeeds exactly when a token is there and the clock has not gone back; no other bucket changes. */
  lemma ReserveMeaning(buckets: map<BucketId, Bucket>, id: BucketId, p: nat, rate: real, capacity: int, now: int)
    requires Carrying(buckets, id, p, rate, capacity)
    ensures var r := ReserveBucket(buckets, id, p, rate, capacity, now);
      && (r.Ok? <==> CanPay(buckets, id, p, capacity, now))
      && (r.Ok? ==> Paid(buckets, r.value, id, p, capacity, now) && id in r.value && r.value == buckets[id := r.value[id]])
  {
    if id in buckets && buckets[id].policy == p && buckets[id].updatedAt <= now {
      assert Level(buckets[id], now) == MinReal(capacity as real, buckets[id].tokens + Refill(now - buckets[id].updatedAt, rate));
    }
  }

  ghost predicate BothPaid(buckets: map<BucketId, Bucket>, buckets': map<BucketId, Bucket>, e: nat, p: nat, host: string, capacity: int, now: int) {
    var all, one := BucketId(e, AllHosts), BucketId(e, Host(host));
    && buckets'.Keys == buckets.Keys + {all, one}
    && (forall id :: id in buckets && id != all && id != one ==> buckets'[id] == buckets[id])
    && Paid(buckets, buckets', all, p, capacity, now) && Paid(buckets, buckets', one, p, capacity, now)
  }

  /** Both buckets of a request pay one token each, or neither is touched. */
  lemma TakeMeaning(buckets: map<BucketId, Bucket>, e: nat, p: nat, host: string, b: Budgets, now: int)
    requires Carrying(buckets, BucketId(e, AllHosts), p, b.globalRate, b.burst)
    requires Carrying(buckets, BucketId(e, Host(host)), p, b.hostRate, b.burst)
    ensures var r := TakeTokens(buckets, e, p, host, b, now);
      && (r.Ok? <==> CanPay(buckets, BucketId(e, AllHosts), p, b.burst, now) && CanPay(buckets, BucketId(e, Host(host)), p, b.burst, now))
      && (r.Ok? ==> BothPaid(buckets, r.value, e, p, host, b.burst, now))
  {
    var all, one := BucketId(e, AllHosts), BucketId(e, Host(host));
    ReserveMeaning(buckets, all, p, b.globalRate, b.burst, now);
    var first := ReserveBucket(buckets, all, p, b.globalRate, b.burst, now);
    if first.Ok? {
      assert first.value == buckets[all := first.value[all]];
      ReserveMeaning(first.value, one, p, b.hostRate, b.burst, now);
    }
  }

  // ---- Grants ----

  /** Consuming succeeds exactly for the right audience, on a live grant, inside its time window. */
  ghost predicate MayConsume(a: Authority, g: nat, audience: Audience, now: int, trusted: bool) {
    && g in a.grants && trusted && audience == a.grants[g].audience && Alive(a.grants[g])
    && a.grants[g].notBefore <= now < a.grants[g].expiresAt
  }

  /** Nothing changes but the used flag of one grant. */
  ghost predicate GrantSpent(a: Authority, a': Authority, g: nat) {
    g in a.grants && a' == a.(grants := a.grants[g := a.grants[g].(used := true)])
  }

  /** That the engagement, the policy, the epoch and the safety state are in force need not be asked: a live grant implies it. */
  lemma ConsumeMeaning(db: Database, g: nat, audience: Audience, now: int, trusted: bool)
    requires Inv(db)
    ensures var r := ConsumeGrant(db, g, audience, now, trusted);
      && (r.Ok? <==> MayConsume(db.authority, g, audience, now, trusted))
      && (r.Ok? ==> GrantSpent(db.authority, r.value.authority, g) && r.value.gateway == db.gateway)
  {
    LiveGrantInForce(db.authority, g);
  }

  lemma LiveGrantInForce(a: Authority, g: nat)
    requires AuthorityInv(a)
    ensures g in a.grants && Alive(a.grants[g]) ==>
      && StillAuthorized(a, a.grants[g]) && InForce(a, a.grants[g].engagement, a.grants[g].policy) && Live(a.policies[a.grants[g].policy])
  {
    if g in a.grants && Alive(a.grants[g]) {
      assert GrantBound(a, g);
      assert ActiveIsLive(a, a.grants[g].engagement);
    }
  }

  ghost predicate Granted(a: Authority, d: nat) { exists h :: h in a.grants && a.grants[h].decision == d }

  ghost predicate IsLeast(x: int, candidates: set<int>) { x in candidates && forall y :: y in candidates ==> x <= y }

  ghost predicate MayMint(a: Authority, d: nat, g: nat, now: int, intentExpiresAt: int, trusted: bool) {
    && d in a.decisions && trusted && a.decisions[d].allowed && InForce(a, a.decisions[d].engagement, a.decisions[d].policy)
    && (Granted(a, d)
        || (&& a.decisions[d].policy in a.policies && now < intentExpiresAt && now < a.policies[a.decisions[d].policy].notAfter
            && g !in a.grants && forall h :: h in a.grants ==> a.grants[h].intent != a.decisions[d].intent))
  }

  /** One new grant: live, bound to the policy and epoch now in force, as wide as intent and policy both allow. */
  ghost predicate GrantMinted(a: Authority, a': Authority, d: nat, g: nat, audience: Audience, now: int, intentExpiresAt: int,
                              timeoutSeconds: int, responseBytes: int) {
    && d in a.decisions && g !in a.grants && g in a'.grants && a' == a.(grants := a.grants[g := a'.grants[g]])
    && a.decisions[d].policy in a.policies && a.decisions[d].engagement in a.engagements
    && var grant, policy := a'.grants[g], a.policies[a.decisions[d].policy];
       && Alive(grant) && grant.audience == audience && grant.decision == d && grant.intent == a.decisions[d].intent
       && grant.engagement == a.decisions[d].engagement && grant.policy == a.decisions[d].policy
       && grant.epoch == a.engagements[grant.engagement].epoch
       && grant.notBefore == now < grant.expiresAt && IsLeast(grant.expiresAt, {now + 30 * SECOND, intentExpiresAt, policy.notAfter})
       && IsLeast(grant.timeoutSeconds, {timeoutSeconds, 300}) && IsLeast(grant.responseBytes, {responseBytes, policy.budgets.responseBytes})
  }

  /** Minting succeeds exactly for an allowed decision under the policy in force; a decision has one grant at most. */
  lemma MintMeaning(db: Database, d: nat, g: nat, audience: Audience, now: int, intentExpiresAt: int,
                    timeoutSeconds: int, responseBytes: int, trusted: bool)
    requires Inv(db)
    ensures var r := MintGrant(db, d, g, audience, now, intentExpiresAt, timeoutSeconds, responseBytes, trusted);
      && (r.Ok? <==> MayMint(db.authority, d, g, now, intentExpiresAt, trusted))
      && (r.Ok? ==> r.value.gateway == db.gateway)
      && (r.Ok? && Granted(db.authority, d) ==> r.value == db)
      && (r.Ok? && !Granted(db.authority, d) ==> GrantMinted(db.authority, r.value.authority, d, g, audience, now, intentExpiresAt, timeoutSeconds, responseBytes))
  {
    var a := db.authority;
    if d in a.decisions && a.decisions[d].engagement in a.engagements { assert ActiveIsLive(a, a.decisions[d].engagement); }
  }

  // ---- Preparing a session ----

  /** Room is counted in sessions and starts; every check on the authority follows from the grant being live. */
  ghost predicate MayOpen(db: Database, g: nat, d: nat, k: nat, now: int, trusted: bool)
    requires Referential(db)
  {
    var a, gw := db.authority, db.gateway;
    && g in a.grants && d in a.destinations && a.destinations[d].grant == g && a.destinations[d].allowed && a.destinations[d].host != ""
    && trusted && MayConsume(a, g, EgressGateway, now, trusted) && a.attestations[a.destinations[d].attestation].valid
    && (forall j :: j in gw.reservations ==> gw.reservations[j].grant != g)
    && var grant, host, b := a.grants[g], a.destinations[d].host, a.policies[a.grants[g].policy].budgets;
       && UsableBudgets(b)
       && |Waiting(gw, grant.engagement)| + |Begun(gw, grant.engagement)| < b.totalRequests && |Open(gw, grant.engagement)| < b.connections
       && CanPay(gw.buckets, BucketId(grant.engagement, AllHosts), grant.policy, b.burst, now)
       && CanPay(gw.buckets, BucketId(grant.engagement, Host(host)), grant.policy, b.burst, now)
       && k !in gw.sessions && Min(b.responseBytes, grant.responseBytes) > 0
  }

  /** What the rows of a new session say, and the account: the policy's limits now apply. */
  ghost predicate SessionRows(a: Authority, gw': Gateway, g: nat, d: nat, k: nat)
    requires Linked(a) && g in a.grants && d in a.destinations
  {
    var grant, budgets := a.grants[g], a.policies[a.grants[g].policy].budgets;
    && k in gw'.reservations && k in gw'.rates && k in gw'.sessions && grant.engagement in gw'.accounts
    && gw'.reservations[k].engagement == grant.engagement && gw'.reservations[k].policy == grant.policy && gw'.reservations[k].grant == g
    && IsLeast(gw'.reservations[k].responseLimit, {budgets.responseBytes, grant.responseBytes})
    && gw'.rates[k] == RateHold(grant.engagement, grant.policy, a.destinations[d].host, Held)
    && gw'.sessions[k] == Session(a.destinations[d].attestation, Prepared)
    && gw'.accounts[grant.engagement].policy == grant.policy
    && gw'.accounts[grant.engagement].requestLimit == budgets.totalRequests
    && gw'.accounts[grant.engagement].connectionLimit == budgets.connections
  }

  /** One more waiting session, whose request has both tokens; the rows of no other session change, nor any other account. */
  ghost predicate SessionOpened(db: Database, db': Database, g: nat, d: nat, k: nat, now: int) {
    && Referential(db) && Referential(db') && db'.authority == db.authority
    && g in db.authority.grants && d in db.authority.destinations
    && var gw, gw', grant, host := db.gateway, db'.gateway, db.authority.grants[g], db.authority.destinations[d].host;
       var e := grant.engagement;
       && k !in gw.sessions && OnlyRow(gw, gw', k)
       && Waiting(gw', e) == Waiting(gw, e) + {k} && Open(gw', e) == Open(gw, e) + {k} && Begun(gw', e) == Begun(gw, e)
       && (forall x :: x in gw.accounts && x != e ==> x in gw'.accounts && gw'.accounts[x] == gw.accounts[x])
       && SessionRows(db.authority, gw', g, d, k)
       && BothPaid(gw.buckets, gw'.buckets, e, grant.policy, host, db.authority.policies[grant.policy].budgets.burst, now)
  }

  lemma BucketsCarry(a: Authority, g: Gateway, e: nat, p: nat, host: string)
    requires BucketsBounded(g) && LabelsAgree(a, g) && p in a.policies
    ensures var b := a.policies[p].budgets;
      && Carrying(g.buckets, BucketId(e, AllHosts), p, b.globalRate, b.burst)
      && Carrying(g.buckets, BucketId(e, Host(host)), p, b.hostRate, b.burst)
  {
    var all, one := BucketId(e, AllHosts), BucketId(e, Host(host));
    if all in g.buckets { assert LabelAgrees(a, g, all) && BucketBounded(g.buckets[all]); }
    if one in g.buckets { assert LabelAgrees(a, g, one) && BucketBounded(g.buckets[one]); }
  }

  /** The upserted account counts the engagement's sessions and starts. */
  lemma UpsertCounts(g: Gateway, e: nat, p: nat, b: Budgets)
    requires Shaped(g) && LedgerBalanced(g)
    ensures var acc := Upserted(g, e, p, b);
      acc.reserved == |Waiting(g, e)| && acc.active == |Open(g, e)| && acc.committed == |Begun(g, e)|
  {
    if e in g.accounts { assert Balanced(g, e); }
    else {
      forall k | k in g.sessions ensures g.reservations[k].engagement != e { assert Accounted(g, k); }
      assert Waiting(g, e) == {} && Open(g, e) == {} && Begun(g, e) == {};
    }
  }

  /** The checks of a preparation, given what the invariant says of a live grant, the buckets and the account. */
  lemma OpenChecks(db: Database, g: nat, d: nat, k: nat, now: int, trusted: bool)
    requires Referential(db) && g in db.authority.grants && d in db.authority.destinations && db.authority.destinations[d].grant == g
    requires var a, gw, grant := db.authority, db.gateway, db.authority.grants[g];
      var host, b := a.destinations[d].host, a.policies[grant.policy].budgets;
      var acc := Upserted(gw, grant.engagement, grant.policy, b);
      && (Alive(grant) ==> StillAuthorized(a, grant))
      && acc.reserved == |Waiting(gw, grant.engagement)| && acc.active == |Open(gw, grant.engagement)| && acc.committed == |Begun(gw, grant.engagement)|
      && (TakeTokens(gw.buckets, grant.engagement, grant.policy, host, b, now).Ok? <==>
            CanPay(gw.buckets, BucketId(grant.engagement, AllHosts), grant.policy, b.burst, now)
            && CanPay(gw.buckets, BucketId(grant.engagement, Host(host)), grant.policy, b.burst, now))
    ensures PrepareSession(db, g, d, k, now, trusted).Ok? <==> MayOpen(db, g, d, k, now, trusted)
  {
  }

  lemma OpenAccepts(db: Database, g: nat, d: nat, k: nat, now: int, trusted: bool)
    requires Inv(db)
    ensures PrepareSession(db, g, d, k, now, trusted).Ok? <==> MayOpen(db, g, d, k, now, trusted)
  {
    var a, gw := db.authority, db.gateway;
    if g in a.grants && d in a.destinations && a.destinations[d].grant == g {
      var grant, b := a.grants[g], a.policies[a.grants[g].policy].budgets;
      LiveGrantInForce(a, g);
      BucketsCarry(a, gw, grant.engagement, grant.policy, a.destinations[d].host);
      TakeMeaning(gw.buckets, grant.engagement, grant.policy, a.destinations[d].host, b, now);
      UpsertCounts(gw, grant.engagement, grant.policy, b);
      OpenChecks(db, g, d, k, now, trusted);
    }
  }

  lemma OpenedTables(gw: Gateway, gw': Gateway, k: nat, g: nat, e: nat, p: nat, host: string, b: Budgets, now: int, limit: int, t: nat)
    requires Shaped(gw) && Shaped(gw') && PreparedTables(gw, gw', k, g, e, p, host, b, now, limit, t)
    requires forall j :: j in gw.reservations ==> gw.reservations[j].grant != g
    ensures OnlyRow(gw, gw', k) && Begun(gw', e) == Begun(gw, e)
    ensures Waiting(gw', e) == Waiting(gw, e) + {k} && Open(gw', e) == Open(gw, e) + {k}
    ensures forall x :: x in gw.accounts && x != e ==> x in gw'.accounts && gw'.accounts[x] == gw.accounts[x]
  {
    PreparedShape(gw, gw', k, g, e, p, host, b, now, limit, t);
    OpenedSets(gw, gw', k, g, e, p, host, b, now, limit, t);
  }

  lemma OpenedSets(gw: Gateway, gw': Gateway, k: nat, g: nat, e: nat, p: nat, host: string, b: Budgets, now: int, limit: int, t: nat)
    requires Shaped(gw) && Shaped(gw') && PreparedTables(gw, gw', k, g, e, p, host, b, now, limit, t) && OnlyRow(gw, gw', k)
    ensures Begun(gw', e) == Begun(gw, e) && Waiting(gw', e) == Waiting(gw, e) + {k} && Open(gw', e) == Open(gw, e) + {k}
  {
    SetsElsewhere(gw, gw', k, e);
    assert k in Waiting(gw', e) && k in Open(gw', e) && k !in Begun(gw', e) && k !in Begun(gw, e);
  }

  lemma SetsElsewhere(g: Gateway, g': Gateway, k: nat, e: nat)
    requires Shaped(g) && Shaped(g') && OnlyRow(g, g', k)
    ensures forall j: nat :: j != k ==>
      (j in Open(g, e) <==> j in Open(g', e)) && (j in Waiting(g, e) <==> j in Waiting(g', e)) && (j in Begun(g, e) <==> j in Begun(g', e))
  {
    forall j: nat | j != k
      ensures (j in Open(g, e) <==> j in Open(g', e)) && (j in Waiting(g, e) <==> j in Waiting(g', e)) && (j in Begun(g, e) <==> j in Begun(g', e))
    {
      assert SameRow(g, g', j);
    }
  }

  /** Preparing succeeds exactly when a live grant, room and tokens are there, and then opens one session. */
  lemma PrepareMeaning(db: Database, g: nat, d: nat, k: nat, now: int, trusted: bool)
    requires Inv(db)
    ensures var r := PrepareSession(db, g, d, k, now, trusted);
      && (r.Ok? <==> MayOpen(db, g, d, k, now, trusted))
      && (r.Ok? ==> SessionOpened(db, r.value, g, d, k, now))
  {
    OpenAccepts(db, g, d, k, now, trusted);
    var r := PrepareSession(db, g, d, k, now, trusted);
    if r.Ok? { OpenDoes(db, r.value, g, d, k, now, trusted); }
  }

  lemma OpenDoes(db: Database, db': Database, g: nat, d: nat, k: nat, now: int, trusted: bool)
    requires Inv(db) && PrepareSession(db, g, d, k, now, trusted) == Ok(db')
    ensures SessionOpened(db, db', g, d, k, now)
  {
    PrepareStep(db, db', g, d, k, now, trusted);
    PrepareFacts(db, db', g, d, k, now, trusted);
    var grant, host := db.authority.grants[g], db.authority.destinations[d].host;
    var b := db.authority.policies[grant.policy].budgets;
    BucketsCarry(db.authority, db.gateway, grant.engagement, grant.policy, host);
    TakeMeaning(db.gateway.buckets, grant.engagement, grant.policy, host, b, now);
    OpenedTables(db.gateway, db'.gateway, k, g, grant.engagement, grant.policy, host, b, now,
                 Min(b.responseBytes, grant.responseBytes), db.authority.destinations[d].attestation);
    OpenedRows(db.authority, db.gateway, db'.gateway, g, d, k, now);
  }

  lemma OpenedRows(a: Authority, gw: Gateway, gw': Gateway, g: nat, d: nat, k: nat, now: int)
    requires Linked(a) && g in a.grants && d in a.destinations
    requires var grant, b := a.grants[g], a.policies[a.grants[g].policy].budgets;
      PreparedTables(gw, gw', k, g, grant.engagement, grant.policy, a.destinations[d].host, b, now,
                     Min(b.responseBytes, grant.responseBytes), a.destinations[d].attestation)
    ensures SessionRows(a, gw', g, d, k)
  {
  }

  // ---- Starting, finishing, claiming and aborting ----

  /** The instants a request of session `k` must not outlast. */
  ghost predicate IsDeadline(db: Database, k: nat, now: int, d: int)
    requires Referential(db) && k in db.gateway.sessions
  {
    var a, r := db.authority, db.gateway.reservations[k];
    var grant, engagement, schedule := a.grants[r.grant], a.engagements[r.engagement], a.policies[r.policy].schedule;
    var limits := {now + grant.timeoutSeconds * SECOND, grant.expiresAt, engagement.expiresAt,
                   a.attestations[db.gateway.sessions[k].attestation].expiresAt};
    if schedule.None? then IsLeast(d, limits)
    else
      var scheduled := TestingSchedule.Deadline(schedule.value, now);
      scheduled.Some? && IsLeast(d, limits + {scheduled.value})
  }

  /** A waiting session whose grant is still live, before every expiry, with the schedule open. */
  ghost predicate MayBegin(db: Database, k: nat, now: int, trusted: bool)
    requires Referential(db)
  {
    var a, g := db.authority, db.gateway;
    && trusted && k in g.sessions && g.sessions[k].status == Prepared && k !in g.starts
    && var r := g.reservations[k];
       var grant, attestation, schedule := a.grants[r.grant], a.attestations[g.sessions[k].attestation], a.policies[r.policy].schedule;
       && Alive(grant) && grant.audience == EgressGateway && attestation.valid
       && grant.notBefore <= now && grant.timeoutSeconds > 0
       && now < grant.expiresAt && now < a.engagements[r.engagement].expiresAt && now < attestation.expiresAt
       && (schedule.Some? ==> TestingSchedule.Allows(schedule.value, now))
  }

  /** The session is no longer waiting but begun and still open; its grant is spent; nothing else of either half changes. */
  ghost predicate RequestBegun(db: Database, db': Database, k: nat, now: int) {
    && Referential(db) && Referential(db') && k in db.gateway.sessions
    && var g, g', e := db.gateway, db'.gateway, db.gateway.reservations[k].engagement;
       && GrantSpent(db.authority, db'.authority, g.reservations[k].grant)
       && k in Waiting(g, e) && OnlyRow(g, g', k) && g'.buckets == g.buckets
       && Waiting(g', e) == Waiting(g, e) - {k} && Begun(g', e) == Begun(g, e) + {k} && Open(g', e) == Open(g, e)
       && k in g'.starts && g'.starts[k].committedAt == now && !g'.starts[k].cancelled && IsDeadline(db, k, now, g'.starts[k].deadline)
  }

  /** The computed deadline is the least of the limits. */
  lemma DeadlineIsLeast(grant: Grant, engagement: Engagement, attestation: Attestation, scheduled: Option<int>, now: int)
    ensures var d, limits := RequestDeadline(grant, engagement, attestation, scheduled, now),
        {now + grant.timeoutSeconds * SECOND, grant.expiresAt, engagement.expiresAt, attestation.expiresAt};
      IsLeast(d, if scheduled.Some? then limits + {scheduled.value} else limits)
  {
  }

  lemma DeadlineLater(grant: Grant, engagement: Engagement, attestation: Attestation, scheduled: Option<int>, now: int)
    requires scheduled.Some? ==> now < scheduled.value
    ensures now < RequestDeadline(grant, engagement, attestation, scheduled, now) <==>
      grant.timeoutSeconds > 0 && now < grant.expiresAt && now < engagement.expiresAt && now < attestation.expiresAt
  {
  }

  /** The earliest of the limits lies ahead exactly when each of them does. */
  lemma DeadlineAhead(db: Database, k: nat, now: int)
    requires Referential(db) && k in db.gateway.sessions
    ensures var a, r := db.authority, db.gateway.reservations[k];
      var grant, engagement, attestation, policy := a.grants[r.grant], a.engagements[r.engagement], a.attestations[db.gateway.sessions[k].attestation], a.policies[r.policy];
      var d := RequestDeadline(grant, engagement, attestation, ScheduledDeadline(policy, now), now);
      && (policy.schedule.None? || TestingSchedule.Allows(policy.schedule.value, now) ==> IsDeadline(db, k, now, d))
      && (now < d <==> grant.timeoutSeconds > 0 && now < grant.expiresAt && now < engagement.expiresAt && now < attestation.expiresAt)
  {
    var a, r := db.authority, db.gateway.reservations[k];
    var policy := a.policies[r.policy];
    var scheduled := ScheduledDeadline(policy, now);
    if policy.schedule.Some? { TestingSchedule.DeadlineMeaning(policy.schedule.value, now); }
    DeadlineIsLeast(a.grants[r.grant], a.engagements[r.engagement], a.attestations[db.gateway.sessions[k].attestation], scheduled, now);
    DeadlineLater(a.grants[r.grant], a.engagements[r.engagement], a.attestations[db.gateway.sessions[k].attestation], scheduled, now);
  }

  lemma BeginAccepts(db: Database, k: nat, now: int, trusted: bool)
    requires Inv(db)
    ensures CommitStart(db, k, now, trusted).Ok? <==> MayBegin(db, k, now, trusted)
  {
    var a, g := db.authority, db.gateway;
    if k in g.sessions && g.sessions[k].status == Prepared {
      LiveSessionCounted(g, k);
      assert RowAgrees(a, g, k) && RowConsistent(g, k);
      LiveGrantInForce(a, g.reservations[k].grant);
      DeadlineAhead(db, k, now);
    }
  }

  lemma BegunTables(g: Gateway, g': Gateway, k: nat, start: Start)
    requires Shaped(g) && Shaped(g') && StartedTables(g, g', k, start)
    ensures var e := g.reservations[k].engagement;
      && k in Waiting(g, e) && OnlyRow(g, g', k)
      && Waiting(g', e) == Waiting(g, e) - {k} && Begun(g', e) == Begun(g, e) + {k} && Open(g', e) == Open(g, e)
  {
    StartedShape(g, g', k, start);
    BegunSets(g, g', k, start);
  }

  lemma BegunSets(g: Gateway, g': Gateway, k: nat, start: Start)
    requires Shaped(g) && Shaped(g') && StartedTables(g, g', k, start) && OnlyRow(g, g', k)
    ensures var e := g.reservations[k].engagement;
      k in Waiting(g, e) && Waiting(g', e) == Waiting(g, e) - {k} && Begun(g', e) == Begun(g, e) + {k} && Open(g', e) == Open(g, e)
  {
    var e := g.reservations[k].engagement;
    BegunMember(g, g', k, start);
    SetsElsewhere(g, g', k, e);
    OneMember(Waiting(g, e), Waiting(g', e), k);
    OneMember(Begun(g, e), Begun(g', e), k);
    OneMember(Open(g, e), Open(g', e), k);
  }

  lemma BegunMember(g: Gateway, g': Gateway, k: nat, start: Start)
    requires Shaped(g) && Shaped(g') && StartedTables(g, g', k, start)
    ensures var e := g.reservations[k].engagement;
      k in Waiting(g, e) && k !in Waiting(g', e) && k !in Begun(g, e) && k in Begun(g', e) && k in Open(g, e) && k in Open(g', e)
  {
  }

  /** Two sets that differ in one member at most. */
  lemma OneMember(a: set<nat>, b: set<nat>, k: nat)
    requires forall j: nat :: j != k ==> (j in a <==> j in b)
    ensures b == if k in b then a + {k} else a - {k}
  {
  }

  lemma BeginDoes(db: Database, db': Database, k: nat, now: int, trusted: bool)
    requires Inv(db) && CommitStart(db, k, now, trusted) == Ok(db')
    ensures RequestBegun(db, db', k, now)
  {
    CommitStep(db, db', k, now, trusted);
    CommitFacts(db, db', k, now, trusted);
    BegunTables(db.gateway, db'.gateway, k, db'.gateway.starts[k]);
    StartRecorded(db, db', k, now, trusted);
  }

  lemma StartRecorded(db: Database, db': Database, k: nat, now: int, trusted: bool)
    requires Referential(db) && CommitStart(db, k, now, trusted) == Ok(db')
    ensures k in db.gateway.sessions && k in db'.gateway.starts
    ensures var start := db'.gateway.starts[k]; start.committedAt == now && !start.cancelled && IsDeadline(db, k, now, start.deadline)
  {
    DeadlineAhead(db, k, now);
  }

  /** Starting succeeds exactly for a waiting session with a live grant and time left, and begins that one request. */
  lemma BeginMeaning(db: Database, k: nat, now: int, trusted: bool)
    requires Inv(db)
    ensures var r := CommitStart(db, k, now, trusted);
      && (r.Ok? <==> MayBegin(db, k, now, trusted))
      && (r.Ok? ==> RequestBegun(db, r.value, k, now))
  {
    BeginAccepts(db, k, now, trusted);
    var r := CommitStart(db, k, now, trusted);
    if r.Ok? { BeginDoes(db, r.value, k, now, trusted); }
  }

  /** An open, started session, reported within its limits by whoever holds its claim. */
  ghost predicate MayFinish(g: Gateway, k: nat, m: Measurement, claimId: Option<nat>, trusted: bool)
    requires Shaped(g)
  {
    && trusted && k in g.starts && g.sessions[k].status == Prepared
    && (if k in g.claims then claimId == Some(g.claims[k].claimId) && g.claims[k].status == Claimed else claimId == None)
    && Accepted(m, g.reservations[k].responseLimit, g.starts[k].committedAt, g.starts[k].deadline)
  }

  /** The session is closed with its result, and its start stays as it was. */
  ghost predicate RequestFinished(db: Database, db': Database, k: nat, m: Measurement) {
    && Referential(db) && Referential(db') && db'.authority == db.authority && k in db.gateway.sessions
    && var g, g', e := db.gateway, db'.gateway, db.gateway.reservations[k].engagement;
       && OnlyRow(g, g', k) && g'.buckets == g.buckets && g'.starts == g.starts && g'.reservations == g.reservations
       && k in Open(g, e) && Open(g', e) == Open(g, e) - {k} && Waiting(g', e) == Waiting(g, e) && Begun(g', e) == Begun(g, e)
       && FinishedCells(g, g', k, m)
  }

  lemma OpenStarted(g: Gateway, k: nat)
    requires GatewayInv(g) && k in g.starts && g.sessions[k].status == Prepared
    ensures !g.starts[k].cancelled && k !in g.results && g.reservations[k].status == Spent && g.rates[k].status == Spent
    ensures g.reservations[k].engagement in g.accounts && g.accounts[g.reservations[k].engagement].active >= 1
  {
    assert RowConsistent(g, k);
    LiveSessionCounted(g, k);
  }

  lemma FinishChecks(db: Database, k: nat, m: Measurement, claimId: Option<nat>, trusted: bool)
    requires Referential(db)
    requires var g := db.gateway; k in g.starts && g.sessions[k].status == Prepared ==>
      !g.starts[k].cancelled && k !in g.results && g.reservations[k].engagement in g.accounts
      && g.accounts[g.reservations[k].engagement].active >= 1
    ensures FinalizeRequest(db, k, m, claimId, trusted).Ok? <==> MayFinish(db.gateway, k, m, claimId, trusted)
  {
  }

  /** The session is closed, the result recorded, and a claim on it completed. */
  ghost predicate FinishedCells(g: Gateway, g': Gateway, k: nat, m: Measurement) {
    && k in g.sessions && k in g'.sessions && g'.sessions[k] == g.sessions[k].(status := Closed)
    && k !in g.results && g'.results == g.results[k := m]
    && (k in g.claims ==> k in g'.claims && g'.claims[k] == g.claims[k].(status := ClaimCompleted)) && (k !in g.claims ==> k !in g'.claims)
  }

  lemma FinishedCellsHold(g: Gateway, g': Gateway, k: nat, m: Measurement)
    requires ClosedTables(g, g', k, m)
    ensures FinishedCells(g, g', k, m)
  {
  }

  lemma FinishAccepts(db: Database, k: nat, m: Measurement, claimId: Option<nat>, trusted: bool)
    requires Inv(db)
    ensures FinalizeRequest(db, k, m, claimId, trusted).Ok? <==> MayFinish(db.gateway, k, m, claimId, trusted)
  {
    if k in db.gateway.starts && db.gateway.sessions[k].status == Prepared { OpenStarted(db.gateway, k); }
    FinishChecks(db, k, m, claimId, trusted);
  }

  lemma FinishedTables(g: Gateway, g': Gateway, k: nat, m: Measurement)
    requires Shaped(g) && Shaped(g') && ClosedTables(g, g', k, m)
    ensures var e := g.reservations[k].engagement;
      && OnlyRow(g, g', k) && k in Open(g, e) && Open(g', e) == Open(g, e) - {k}
      && Waiting(g', e) == Waiting(g, e) && Begun(g', e) == Begun(g, e)
  {
    ClosedShape(g, g', k, m);
    FinishedSets(g, g', k, m);
  }

  lemma FinishedSets(g: Gateway, g': Gateway, k: nat, m: Measurement)
    requires Shaped(g) && Shaped(g') && ClosedTables(g, g', k, m) && OnlyRow(g, g', k)
    ensures var e := g.reservations[k].engagement;
      k in Open(g, e) && Open(g', e) == Open(g, e) - {k} && Waiting(g', e) == Waiting(g, e) && Begun(g', e) == Begun(g, e)
  {
    var e := g.reservations[k].engagement;
    SetsElsewhere(g, g', k, e);
    assert k in Open(g, e) && k !in Open(g', e) && k !in Waiting(g, e) && k !in Waiting(g', e) && k in Begun(g, e) && k in Begun(g', e);
    OneMember(Open(g, e), Open(g', e), k);
    OneMember(Waiting(g, e), Waiting(g', e), k);
    OneMember(Begun(g, e), Begun(g', e), k);
  }

  lemma FinishDoes(db: Database, db': Database, k: nat, m: Measurement, claimId: Option<nat>, trusted: bool)
    requires Inv(db) && FinalizeRequest(db, k, m, claimId, trusted) == Ok(db')
    ensures RequestFinished(db, db', k, m)
  {
    FinalizeStep(db, db', k, m, claimId, trusted);
    FinalizeFacts(db, db', k, m, claimId, trusted);
    FinishedTables(db.gateway, db'.gateway, k, m);
    FinishedCellsHold(db.gateway, db'.gateway, k, m);
  }

  /** Finishing succeeds exactly for an open, started session and an accepted report, and closes that session. */
  lemma FinishMeaning(db: Database, k: nat, m: Measurement, claimId: Option<nat>, trusted: bool)
    requires Inv(db)
    ensures var r := FinalizeRequest(db, k, m, claimId, trusted);
      && (r.Ok? <==> MayFinish(db.gateway, k, m, claimId, trusted))
      && (r.Ok? ==> RequestFinished(db, r.value, k, m))
  {
    FinishAccepts(db, k, m, claimId, trusted);
    var r := FinalizeRequest(db, k, m, claimId, trusted);
    if r.Ok? { FinishDoes(db, r.value, k, m, claimId, trusted); }
  }

  /** An open, started session without a claim, before its deadline. */
  ghost predicate MayClaim(db: Database, k: nat, now: int, contained: bool)
    requires Referential(db)
  {
    var g := db.gateway;
    && contained && k in g.starts && g.sessions[k].status == Prepared && k !in g.claims
    && !db.authority.grants[g.reservations[k].grant].revoked && now < g.starts[k].deadline
    && 1 <= g.reservations[k].responseLimit <= 1_048_576
  }

  lemma ClaimChecks(db: Database, k: nat, claimId: nat, now: int, contained: bool)
    requires Referential(db)
    requires var g := db.gateway; k in g.starts && g.sessions[k].status == Prepared ==>
      !g.starts[k].cancelled && k !in g.results && g.reservations[k].status == Spent && g.rates[k].status == Spent
      && db.authority.grants[g.reservations[k].grant].used
    ensures ClaimFixture(db, k, claimId, now, contained).Ok? <==> MayClaim(db, k, now, contained)
  {
  }

  /** Claiming succeeds exactly for an open, started, unclaimed request in time, and adds that claim alone. */
  lemma ClaimMeaning(db: Database, k: nat, claimId: nat, now: int, contained: bool)
    requires Inv(db)
    ensures var r := ClaimFixture(db, k, claimId, now, contained);
      && (r.Ok? <==> MayClaim(db, k, now, contained))
      && (r.Ok? ==> r.value == db.(gateway := db.gateway.(claims := db.gateway.claims[k := Claim(claimId, Claimed)])))
  {
    if k in db.gateway.starts && db.gateway.sessions[k].status == Prepared {
      OpenStarted(db.gateway, k);
      assert RowAgrees(db.authority, db.gateway, k);
    }
    ClaimChecks(db, k, claimId, now, contained);
    var r := ClaimFixture(db, k, claimId, now, contained);
    if r.Ok? { ClaimFacts(db, r.value, k, claimId, now, contained); }
  }

  /** The waiting session is aborted, and request, connection and both tokens are given back. */
  ghost predicate SessionAborted(db: Database, db': Database, k: nat, now: int) {
    && Referential(db) && Referential(db') && db'.authority == db.authority && k in db.gateway.sessions
    && var g, g', r := db.gateway, db'.gateway, db.gateway.reservations[k];
       && OnlyRow(g, g', k) && k in g'.sessions
       && g'.sessions[k] == g.sessions[k].(status := Aborted) && g'.rates[k] == g.rates[k].(status := Released)
       && k in Waiting(g, r.engagement) && Waiting(g', r.engagement) == Waiting(g, r.engagement) - {k}
       && Open(g', r.engagement) == Open(g, r.engagement) - {k} && Begun(g', r.engagement) == Begun(g, r.engagement)
       && (forall x :: x in g.accounts && x != r.engagement ==> x in g'.accounts && g'.accounts[x] == g.accounts[x])
       && TokensBack(g.buckets, g'.buckets, r.engagement, g.rates[k].host, now)
  }

  /** Both buckets of the request are there and get one token back; no other bucket changes. */
  ghost predicate TokensBack(buckets: map<BucketId, Bucket>, buckets': map<BucketId, Bucket>, e: nat, host: string, now: int) {
    && buckets'.Keys == buckets.Keys && BucketId(e, AllHosts) in buckets && BucketId(e, Host(host)) in buckets
    && forall id :: id in buckets ==> Restored(buckets[id], buckets'[id], if IsBucketOf(id, e, host) then 1 else 0, now)
  }

  lemma AbortedTokens(g: Gateway, buckets': map<BucketId, Bucket>, hold: RateHold, now: int)
    requires BucketsBounded(g) && BucketsMatch(g.buckets, hold) && buckets' == ReleaseOne(g.buckets, hold, now)
    ensures TokensBack(g.buckets, buckets', hold.engagement, hold.host, now)
  {
    ReleaseRestores(g.buckets, hold, now);
    forall id | id in g.buckets
      ensures Restored(g.buckets[id], buckets'[id], if IsBucketOf(id, hold.engagement, hold.host) then 1 else 0, now)
    {
      assert BucketBounded(g.buckets[id]);
    }
  }

  lemma AbortAccepts(db: Database, k: nat, now: int, reasonGiven: bool)
    requires Inv(db)
    ensures AbortSession(db, k, now, reasonGiven).Ok? <==>
      reasonGiven && k in db.gateway.sessions && db.gateway.sessions[k].status == Prepared && k !in db.gateway.starts
  {
    if k in db.gateway.sessions && db.gateway.sessions[k].status == Prepared { LiveSessionCounted(db.gateway, k); }
  }

  lemma AbortedSets(g: Gateway, g': Gateway, k: nat, now: int)
    requires Shaped(g) && Shaped(g') && AbortedTables(g, g', k, now) && OnlyRow(g, g', k)
    ensures var e := g.reservations[k].engagement;
      && k in Waiting(g, e) && Waiting(g', e) == Waiting(g, e) - {k} && Open(g', e) == Open(g, e) - {k} && Begun(g', e) == Begun(g, e)
      && (forall x :: x in g.accounts && x != e ==> x in g'.accounts && g'.accounts[x] == g.accounts[x])
  {
    var e := g.reservations[k].engagement;
    SetsElsewhere(g, g', k, e);
    assert k in Waiting(g, e) && k !in Waiting(g', e) && k in Open(g, e) && k !in Open(g', e) && k !in Begun(g, e) && k !in Begun(g', e);
    OneMember(Waiting(g, e), Waiting(g', e), k);
    OneMember(Open(g, e), Open(g', e), k);
    OneMember(Begun(g, e), Begun(g', e), k);
  }

  lemma AbortDoes(db: Database, db': Database, k: nat, now: int, reasonGiven: bool)
    requires Inv(db) && AbortSession(db, k, now, reasonGiven) == Ok(db')
    ensures SessionAborted(db, db', k, now)
  {
    var g, g' := db.gateway, db'.gateway;
    AbortStep(db, db', k, now, reasonGiven);
    LiveSessionCounted(g, k);
    assert RowConsistent(g, k);
    AbortFacts(db, db', k, now, reasonGiven);
    AbortedShape(g, g', k, now);
    AbortedSets(g, g', k, now);
    AbortedTokens(g, g'.buckets, g.rates[k], now);
  }

  /** Aborting succeeds exactly for a waiting session, and gives back all that its preparation took. */
  lemma AbortMeaning(db: Database, k: nat, now: int, reasonGiven: bool)
    requires Inv(db)
    ensures var r := AbortSession(db, k, now, reasonGiven);
      && (r.Ok? <==> reasonGiven && k in db.gateway.sessions && db.gateway.sessions[k].status == Prepared && k !in db.gateway.starts)
      && (r.Ok? ==> SessionAborted(db, r.value, k, now))
  {
    AbortAccepts(db, k, now, reasonGiven);
    var r := AbortSession(db, k, now, reasonGiven);
    if r.Ok? { AbortDoes(db, r.value, k, now, reasonGiven); }
  }
}
