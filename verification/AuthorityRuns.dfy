/**
 * Every operation keeps the invariant, so every run does; and what follows from it for whole runs:
 * conservation, quiescence, and single use of grants.
 */
module AuthorityRuns {
  import opened Common
  import opened AuthorityModel
  import opened GatewayInvariant
  import opened AuthorityInvariant
  import opened ResponseAccounting

  // ---- Gateway operations ----

  lemma AgreeRowChange(a: Authority, g: Gateway, g': Gateway, k: nat)
    requires Agree(a, g) && Shaped(g') && OnlyRow(g, g', k) && LabelsAgree(a, g')
    requires k in g'.sessions && RowAgrees(a, g', k)
    ensures Agree(a, g')
  {
    forall j | j in g'.sessions
      ensures RowAgrees(a, g', j)
    {
      if j != k {
        assert SameRow(g, g', j);
        assert RowAgrees(a, g, j);
      }
    }
    RowsJoin(a, g');
  }

  lemma SameLabels(a: Authority, g: Gateway, g': Gateway)
    requires LabelsAgree(a, g) && g'.buckets == g.buckets
    ensures LabelsAgree(a, g')
  {
    forall id | id in g'.buckets ensures LabelAgrees(a, g', id) { assert LabelAgrees(a, g, id); }
  }

  lemma TakenLabel(a: Authority, g: Gateway, after: map<BucketId, Bucket>, e: nat, p: nat, host: string, now: int, id: BucketId)
    requires p in a.policies && id in after && (id in g.buckets ==> LabelAgrees(a, g, id))
    requires TakeTokens(g.buckets, e, p, host, a.policies[p].budgets, now) == Ok(after)
    ensures LabelAgrees(a, g.(buckets := after), id)
  {
  }

  lemma TakenLabels(a: Authority, g: Gateway, g': Gateway, e: nat, p: nat, host: string, now: int)
    requires LabelsAgree(a, g) && p in a.policies
    requires TakeTokens(g.buckets, e, p, host, a.policies[p].budgets, now) == Ok(g'.buckets)
    ensures LabelsAgree(a, g')
  {
    forall id | id in g'.buckets
      ensures LabelAgrees(a, g', id)
    {
      if id in g.buckets { assert LabelAgrees(a, g, id); }
      TakenLabel(a, g, g'.buckets, e, p, host, now, id);
    }
  }

  /** What a successful preparation has checked and changed. */
  lemma PrepareFacts(db: Database, db': Database, g: nat, d: nat, k: nat, now: int, trusted: bool)
    requires Referential(db) && PrepareSession(db, g, d, k, now, trusted) == Ok(db')
    ensures g in db.authority.grants && d in db.authority.destinations
    ensures var grant, destination := db.authority.grants[g], db.authority.destinations[d];
      var b := db.authority.policies[grant.policy].budgets;
      && destination.attestation in db.authority.attestations
      && InForce(db.authority, grant.engagement, grant.policy) && UsableBudgets(b) && Alive(grant)
      && (forall j :: j in db.gateway.reservations ==> db.gateway.reservations[j].grant != g)
      && PreparedTables(db.gateway, db'.gateway, k, g, grant.engagement, grant.policy, destination.host, b, now,
                        Min(b.responseBytes, grant.responseBytes), destination.attestation)
      && db' == Database(db.authority, db'.gateway)
  {
  }

  lemma PrepareStep(db: Database, db': Database, g: nat, d: nat, k: nat, now: int, trusted: bool)
    requires Inv(db) && PrepareSession(db, g, d, k, now, trusted) == Ok(db')
    ensures Inv(db') && Extends(db.authority, db'.authority)
  {
    ExtendsItself(db.authority);
    PrepareFacts(db, db', g, d, k, now, trusted);
    var grant, destination := db.authority.grants[g], db.authority.destinations[d];
    PreparedStep(db.authority, db.gateway, db'.gateway, k, g, destination.host, now,
                 Min(db.authority.policies[grant.policy].budgets.responseBytes, grant.responseBytes), destination.attestation);
  }

  lemma PreparedStep(a: Authority, gw: Gateway, gw': Gateway, k: nat, g: nat, host: string, now: int, limit: int, t: nat)
    requires AuthorityInv(a) && GatewayInv(gw) && Agree(a, gw) && g in a.grants && t in a.attestations
    requires InForce(a, a.grants[g].engagement, a.grants[g].policy) && UsableBudgets(a.policies[a.grants[g].policy].budgets)
    requires forall j :: j in gw.reservations ==> gw.reservations[j].grant != g
    requires PreparedTables(gw, gw', k, g, a.grants[g].engagement, a.grants[g].policy, host, a.policies[a.grants[g].policy].budgets, now, limit, t)
    ensures Inv(Database(a, gw'))
  {
    var grant := a.grants[g];
    assert GatewayInv(gw') by {
      SharedPolicy(a, gw, grant.engagement, grant.policy);
      PrepareKeeps(gw, gw', k, g, grant.engagement, grant.policy, host, a.policies[grant.policy].budgets, now, limit, t);
    }
    PreparedShape(gw, gw', k, g, grant.engagement, grant.policy, host, a.policies[grant.policy].budgets, now, limit, t);
    TakenLabels(a, gw, gw', grant.engagement, grant.policy, host, now);
    AgreeRowChange(a, gw, gw', k);
  }

  lemma SharedPolicy(a: Authority, g: Gateway, e: nat, p: nat)
    requires Shaped(g) && RowsAgree(a, g) && InForce(a, e, p)
    ensures OpenUnder(g, e, p)
  {
    forall j | j in Open(g, e)
      ensures g.reservations[j].policy == p
    {
      assert RowAgrees(a, g, j);
    }
  }

  /** What a successful start has checked and changed. */
  lemma CommitFacts(db: Database, db': Database, k: nat, now: int, trusted: bool)
    requires Referential(db) && CommitStart(db, k, now, trusted) == Ok(db')
    ensures k in db.gateway.sessions && k in db'.gateway.starts
    ensures StartedTables(db.gateway, db'.gateway, k, db'.gateway.starts[k])
    ensures var r := db.gateway.reservations[k];
      && Scheduled(db.authority.policies[r.policy], db'.gateway.starts[k])
      && Alive(db.authority.grants[r.grant])
      && db'.authority == db.authority.(grants := db.authority.grants[r.grant := db.authority.grants[r.grant].(used := true)])
      && db' == Database(db'.authority, db'.gateway)
  {
  }

  lemma CommitStep(db: Database, db': Database, k: nat, now: int, trusted: bool)
    requires Inv(db) && CommitStart(db, k, now, trusted) == Ok(db')
    ensures Inv(db') && Extends(db.authority, db'.authority)
  {
    CommitFacts(db, db', k, now, trusted);
    SpendGrows(db.authority, db'.authority, db.gateway.reservations[k].grant);
    StartKeeps(db.gateway, db'.gateway, k, db'.gateway.starts[k]);
    StartedAgree(db.authority, db'.authority, db.gateway, db'.gateway, k);
  }

  lemma StartedAgree(a: Authority, a': Authority, g: Gateway, g': Gateway, k: nat)
    requires Agree(a, g) && Shaped(g') && k in g'.starts && StartedTables(g, g', k, g'.starts[k])
    requires Extends(a, a') && ForceGrows(a, a')
    requires a'.policies == a.policies && Scheduled(a.policies[g.reservations[k].policy], g'.starts[k])
    requires g.reservations[k].grant in a'.grants && a'.grants[g.reservations[k].grant].used
    ensures Agree(a', g')
  {
    AgreeGrows(a, a', g);
    assert RowAgrees(a', g, k);
    StartedAgrees(a', g, g', k);
    assert LabelsAgree(a', g') by { SameLabels(a', g, g'); }
    AgreeRowChange(a', g, g', k);
  }

  lemma StartedAgrees(a: Authority, g: Gateway, g': Gateway, k: nat)
    requires Shaped(g) && Shaped(g') && k in g'.starts && StartedTables(g, g', k, g'.starts[k]) && RowAgrees(a, g, k)
    requires a.grants[g.reservations[k].grant].used && Scheduled(a.policies[g.reservations[k].policy], g'.starts[k])
    ensures RowAgrees(a, g', k) && OnlyRow(g, g', k)
  {
  }

  lemma FinalizeFacts(db: Database, db': Database, k: nat, m: Measurement, claimId: Option<nat>, trusted: bool)
    requires Referential(db) && FinalizeRequest(db, k, m, claimId, trusted) == Ok(db')
    ensures ClosedTables(db.gateway, db'.gateway, k, m)
    ensures Accepted(m, db.gateway.reservations[k].responseLimit, db.gateway.starts[k].committedAt, db.gateway.starts[k].deadline)
    ensures db' == Database(db.authority, db'.gateway)
  {
  }

  lemma FinalizeStep(db: Database, db': Database, k: nat, m: Measurement, claimId: Option<nat>, trusted: bool)
    requires Inv(db) && FinalizeRequest(db, k, m, claimId, trusted) == Ok(db')
    ensures Inv(db') && Extends(db.authority, db'.authority)
  {
    ExtendsItself(db.authority);
    FinalizeFacts(db, db', k, m, claimId, trusted);
    ClosedStep(db.authority, db.gateway, db'.gateway, k, m);
  }

  lemma ClosedStep(a: Authority, g: Gateway, g': Gateway, k: nat, m: Measurement)
    requires AuthorityInv(a) && GatewayInv(g) && Agree(a, g) && ClosedTables(g, g', k, m)
    ensures Inv(Database(a, g'))
  {
    CloseKeeps(g, g', k, m);
    assert Agree(a, g') by { ClosedAgree(a, g, g', k, m); }
  }

  lemma ClosedAgree(a: Authority, g: Gateway, g': Gateway, k: nat, m: Measurement)
    requires Agree(a, g) && Shaped(g') && ClosedTables(g, g', k, m)
    ensures Agree(a, g')
  {
    assert RowAgrees(a, g, k);
    ClosedAgrees(a, g, g', k, m);
    assert LabelsAgree(a, g') by { SameLabels(a, g, g'); }
    AgreeRowChange(a, g, g', k);
  }

  lemma ClosedAgrees(a: Authority, g: Gateway, g': Gateway, k: nat, m: Measurement)
    requires Shaped(g) && Shaped(g') && ClosedTables(g, g', k, m) && RowAgrees(a, g, k)
    ensures RowAgrees(a, g', k) && OnlyRow(g, g', k)
  {
  }

  lemma ClaimFacts(db: Database, db': Database, k: nat, claimId: nat, now: int, contained: bool)
    requires Referential(db) && ClaimFixture(db, k, claimId, now, contained) == Ok(db')
    ensures k in db.gateway.starts && db.gateway.sessions[k].status == Prepared
    ensures db' == db.(gateway := db.gateway.(claims := db.gateway.claims[k := Claim(claimId, Claimed)]))
  {
  }

  lemma ClaimStep(db: Database, db': Database, k: nat, claimId: nat, now: int, contained: bool)
    requires Inv(db) && ClaimFixture(db, k, claimId, now, contained) == Ok(db')
    ensures Inv(db') && Extends(db.authority, db'.authority)
  {
    ExtendsItself(db.authority);
    ClaimFacts(db, db', k, claimId, now, contained);
    ClaimedStep(db.authority, db.gateway, db'.gateway, k, claimId);
  }

  lemma ClaimedStep(a: Authority, g: Gateway, g': Gateway, k: nat, claimId: nat)
    requires AuthorityInv(a) && GatewayInv(g) && Agree(a, g)
    requires k in g.starts && g.sessions[k].status == Prepared && g' == g.(claims := g.claims[k := Claim(claimId, Claimed)])
    ensures Inv(Database(a, g'))
  {
    ClaimKeeps(g, g', k, Claim(claimId, Claimed));
    assert Agree(a, g') by { ClaimedAgree(a, g, g'); }
  }

  lemma ClaimedAgree(a: Authority, g: Gateway, g': Gateway)
    requires Agree(a, g) && Shaped(g') && g' == g.(claims := g'.claims)
    ensures Agree(a, g')
  {
    forall k | k in g'.sessions ensures RowAgrees(a, g', k) { assert RowAgrees(a, g, k); }
    forall id | id in g'.buckets ensures LabelAgrees(a, g', id) { assert LabelAgrees(a, g, id); }
  }

  /** What a successful abort has checked and changed. */
  lemma AbortFacts(db: Database, db': Database, k: nat, now: int, reasonGiven: bool)
    requires Referential(db) && AbortSession(db, k, now, reasonGiven) == Ok(db')
    requires k in db.gateway.sessions && RowConsistent(db.gateway, k) && db.gateway.reservations[k].engagement in db.gateway.accounts
    ensures AbortedTables(db.gateway, db'.gateway, k, now) && db' == Database(db.authority, db'.gateway)
  {
    ReleaseFacts(db, db', k, now);
  }

  lemma ReleaseFacts(db: Database, db': Database, k: nat, now: int)
    requires Shaped(db.gateway) && k in db.gateway.sessions && ReleaseSession(db, k, now) == Ok(db')
    requires db.gateway.sessions[k].status == Prepared && k !in db.gateway.starts
    requires RowConsistent(db.gateway, k) && db.gateway.reservations[k].engagement in db.gateway.accounts
    ensures AbortedTables(db.gateway, db'.gateway, k, now) && db' == Database(db.authority, db'.gateway)
  {
  }

  lemma AbortStep(db: Database, db': Database, k: nat, now: int, reasonGiven: bool)
    requires Inv(db) && AbortSession(db, k, now, reasonGiven) == Ok(db')
    ensures Inv(db') && Extends(db.authority, db'.authority)
  {
    ExtendsItself(db.authority);
    LiveSessionCounted(db.gateway, k);
    AbortFacts(db, db', k, now, reasonGiven);
    AbortedStep(db.authority, db.gateway, db'.gateway, k, now);
  }

  lemma AbortedStep(a: Authority, g: Gateway, g': Gateway, k: nat, now: int)
    requires AuthorityInv(a) && GatewayInv(g) && Agree(a, g) && AbortedTables(g, g', k, now)
    ensures Inv(Database(a, g'))
  {
    AbortKeeps(g, g', k, now);
    assert Agree(a, g') by { AbortedAgree(a, g, g', k, now); }
  }

  lemma AbortedAgree(a: Authority, g: Gateway, g': Gateway, k: nat, now: int)
    requires Agree(a, g) && Shaped(g') && AbortedTables(g, g', k, now)
    ensures Agree(a, g')
  {
    assert RowAgrees(a, g, k);
    AbortedAgrees(a, g, g', k, now);
    ReleasedLabels(a, g, g', g.rates[k], now);
    AgreeRowChange(a, g, g', k);
  }

  lemma ReleasedLabels(a: Authority, g: Gateway, g': Gateway, hold: RateHold, now: int)
    requires LabelsAgree(a, g) && g'.buckets == ReleaseOne(g.buckets, hold, now)
    ensures LabelsAgree(a, g')
  {
    forall id | id in g'.buckets ensures LabelAgrees(a, g', id) { assert LabelAgrees(a, g, id); }
  }

  lemma AbortedAgrees(a: Authority, g: Gateway, g': Gateway, k: nat, now: int)
    requires Shaped(g) && Shaped(g') && AbortedTables(g, g', k, now) && RowAgrees(a, g, k)
    ensures RowAgrees(a, g', k) && OnlyRow(g, g', k)
  {
  }

  // ---- Authority operations ----

  lemma GrowStep(db: Database, a': Authority)
    requires Inv(db) && Grows(db.authority, a')
    ensures Inv(db.(authority := a'))
  {
    AgreeGrows(db.authority, a', db.gateway);
  }

  lemma ExtendsItself(a: Authority)
    ensures Extends(a, a)
  {
  }

  lemma ForceItself(a: Authority)
    requires AuthorityInv(a)
    ensures Grows(a, a)
  {
    ExtendsItself(a);
  }

  lemma CreateStep(db: Database, db': Database, e: nat, expiresAt: int)
    requires Inv(db) && CreateEngagement(db, e, expiresAt) == Ok(db')
    ensures Inv(db') && Extends(db.authority, db'.authority)
  {
    CreateGrows(db.authority, db'.authority, e, expiresAt);
    GrowStep(db, db'.authority);
  }

  lemma CompileStep(db: Database, db': Database, p: nat, row: Policy)
    requires Inv(db) && CompilePolicy(db, p, row) == Ok(db')
    ensures Inv(db') && Extends(db.authority, db'.authority)
  {
    CompileGrows(db.authority, db'.authority, p, row.(activated := false, revoked := false));
    GrowStep(db, db'.authority);
  }

  lemma EvaluateStep(db: Database, db': Database, e: nat, d: nat, intent: nat, allowed: bool, trusted: bool)
    requires Inv(db) && EvaluateIntent(db, e, d, intent, allowed, trusted) == Ok(db')
    ensures Inv(db') && Extends(db.authority, db'.authority)
  {
    if d in db.authority.decisions { ForceItself(db.authority); }
    else { EvaluateGrows(db.authority, db'.authority, d, db'.authority.decisions[d]); }
    GrowStep(db, db'.authority);
  }

  lemma AuthorizeFacts(db: Database, db': Database, d: nat, g: nat, t: nat, host: string, allowed: bool, now: int, trusted: bool)
    requires Referential(db) && AuthorizeDestination(db, d, g, t, host, allowed, now, trusted) == Ok(db')
    ensures d !in db.authority.destinations && g in db.authority.grants && t in db.authority.attestations
    ensures db' == db.(authority := db.authority.(destinations := db.authority.destinations[d := Destination(g, t, host, allowed)]))
  {
  }

  lemma AuthorizeStep(db: Database, db': Database, d: nat, g: nat, t: nat, host: string, allowed: bool, now: int, trusted: bool)
    requires Inv(db) && AuthorizeDestination(db, d, g, t, host, allowed, now, trusted) == Ok(db')
    ensures Inv(db') && Extends(db.authority, db'.authority)
  {
    AuthorizeFacts(db, db', d, g, t, host, allowed, now, trusted);
    AuthorizeGrows(db.authority, db'.authority, d, Destination(g, t, host, allowed));
    GrowStep(db, db'.authority);
  }

  lemma MintFacts(db: Database, db': Database, d: nat, g: nat, audience: Audience, now: int, intentExpiresAt: int,
                  timeoutSeconds: int, responseBytes: int, trusted: bool)
    requires Referential(db)
    requires MintGrant(db, d, g, audience, now, intentExpiresAt, timeoutSeconds, responseBytes, trusted) == Ok(db')
    ensures db' == db || (
      && g !in db.authority.grants && g in db'.authority.grants
      && db' == db.(authority := db.authority.(grants := db.authority.grants[g := db'.authority.grants[g]]))
      && var grant := db'.authority.grants[g];
         && InForce(db.authority, grant.engagement, grant.policy) && grant.policy in db.authority.policies
         && grant.epoch == db.authority.engagements[grant.engagement].epoch
         && grant.decision == d && (forall h :: h in db.authority.grants ==> db.authority.grants[h].decision != d))
  {
  }

  lemma MintStep(db: Database, db': Database, d: nat, g: nat, audience: Audience, now: int, intentExpiresAt: int,
                 timeoutSeconds: int, responseBytes: int, trusted: bool)
    requires Inv(db) && MintGrant(db, d, g, audience, now, intentExpiresAt, timeoutSeconds, responseBytes, trusted) == Ok(db')
    ensures Inv(db') && Extends(db.authority, db'.authority)
  {
    MintFacts(db, db', d, g, audience, now, intentExpiresAt, timeoutSeconds, responseBytes, trusted);
    if db' == db { ForceItself(db.authority); }
    else { MintGrows(db.authority, db'.authority, g, db'.authority.grants[g]); }
    GrowStep(db, db'.authority);
  }

  lemma ConsumeFacts(db: Database, db': Database, g: nat, audience: Audience, now: int, trusted: bool)
    requires Referential(db) && ConsumeGrant(db, g, audience, now, trusted) == Ok(db')
    ensures g in db.authority.grants && Alive(db.authority.grants[g])
    ensures db' == db.(authority := db.authority.(grants := db.authority.grants[g := db.authority.grants[g].(used := true)]))
  {
  }

  lemma ConsumeStep(db: Database, db': Database, g: nat, audience: Audience, now: int, trusted: bool)
    requires Inv(db) && ConsumeGrant(db, g, audience, now, trusted) == Ok(db')
    ensures Inv(db') && Extends(db.authority, db'.authority)
  {
    ConsumeFacts(db, db', g, audience, now, trusted);
    SpendGrows(db.authority, db'.authority, g);
    GrowStep(db, db'.authority);
  }

  lemma AttestFacts(db: Database, db': Database, t: nat, e: nat, expiresAt: int, trusted: bool)
    requires RecordAttestation(db, t, e, expiresAt, trusted) == Ok(db')
    ensures t !in db.authority.attestations && e in db.authority.engagements && db.authority.engagements[e].activePolicy.Some?
    ensures var p := db.authority.engagements[e].activePolicy.value;
      && InForce(db.authority, e, p) && p in db.authority.policies
      && db' == db.(authority := db.authority.(attestations :=
           InvalidateAttestations(db.authority, Some(e)).attestations[t := Attestation(e, p, expiresAt, true)]))
  {
  }

  lemma AttestStep(db: Database, db': Database, t: nat, e: nat, expiresAt: int, trusted: bool)
    requires Inv(db) && RecordAttestation(db, t, e, expiresAt, trusted) == Ok(db')
    ensures Inv(db') && Extends(db.authority, db'.authority)
  {
    AttestFacts(db, db', t, e, expiresAt, trusted);
    AttestGrows(db.authority, db'.authority, t, Attestation(e, db.authority.engagements[e].activePolicy.value, expiresAt, true));
    GrowStep(db, db'.authority);
  }

  // ---- Safety operations ----

  lemma ActivateFacts(db: Database, db': Database, p: nat, now: int, trusted: bool, current: bool)
    requires Referential(db) && ActivatePolicy(db, p, now, trusted, current) == Ok(db')
    ensures p in db.authority.policies && !db.authority.policies[p].activated && !db.authority.policies[p].revoked
    ensures WithSweep(ActivatedAuthority(db.authority, p), db.gateway, Some(db.authority.policies[p].engagement), now) == Ok(db')
  {
  }

  lemma ActivateStep(db: Database, db': Database, p: nat, now: int, trusted: bool, current: bool)
    requires Inv(db) && ActivatePolicy(db, p, now, trusted, current) == Ok(db')
    ensures Inv(db') && Extends(db.authority, db'.authority)
  {
    ActivateFacts(db, db', p, now, trusted, current);
    ActivatedKeeps(db.authority, p);
    HaltKeeps(db, ActivatedAuthority(db.authority, p), Some(db.authority.policies[p].engagement), now);
  }

  lemma RevokeStep(db: Database, db': Database, p: nat, now: int, reasonGiven: bool)
    requires Inv(db) && RevokePolicy(db, p, now, reasonGiven) == Ok(db')
    ensures Inv(db') && Extends(db.authority, db'.authority)
  {
    WithdrawnKeeps(db.authority, p);
    HaltKeeps(db, WithdrawnAuthority(db.authority, p), Some(db.authority.policies[p].engagement), now);
  }

  lemma PauseStep(db: Database, db': Database, e: nat, now: int, reasonGiven: bool)
    requires Inv(db) && PauseAssessment(db, e, now, reasonGiven) == Ok(db')
    ensures Inv(db') && Extends(db.authority, db'.authority)
  {
    PausedKeeps(db.authority, e);
    HaltKeeps(db, PausedAuthority(db.authority, e), Some(e), now);
  }

  lemma HaltStep(db: Database, status: GlobalStatus, now: int)
    requires Inv(db)
    ensures HaltEverything(db, status, now) == Ok(Database(HaltedAuthority(db.authority, status), Swept(db.gateway, None, now)))
    ensures Inv(HaltEverything(db, status, now).value) && Extends(db.authority, HaltedAuthority(db.authority, status))
  {
    HaltedKeeps(db.authority, status);
    HaltKeeps(db, HaltedAuthority(db.authority, status), None, now);
  }

  lemma GlobalStep(db: Database, db': Database, status: GlobalStatus, now: int, reasonGiven: bool)
    requires Inv(db) && SetGlobalSafety(db, status, now, reasonGiven) == Ok(db')
    ensures Inv(db') && Extends(db.authority, db'.authority)
  {
    if status == GlobalActive {
      UnpauseGrows(db.authority, db'.authority);
      GrowStep(db, db'.authority);
    } else { HaltStep(db, status, now); }
  }

  lemma ResumeStep(db: Database, db': Database, e: nat, now: int, reasonGiven: bool, trusted: bool)
    requires Inv(db) && ResumeAssessment(db, e, now, reasonGiven, trusted) == Ok(db')
    ensures Inv(db') && Extends(db.authority, db'.authority)
  {
    ResumeGrows(db.authority, db'.authority, e);
    GrowStep(db, db'.authority);
  }

  // ---- All of them ----

  lemma SessionStep(db: Database, db': Database, op: Op)
    requires Inv(db) && Step(db, op) == Ok(db')
    requires op.DoPrepareSession? || op.DoCommitStart? || op.DoFinalizeRequest? || op.DoClaimFixture? || op.DoAbortSession?
    ensures Inv(db') && Extends(db.authority, db'.authority)
  {
    match op {
      case DoPrepareSession(g, d, k, now, trusted) => PrepareStep(db, db', g, d, k, now, trusted);
      case DoCommitStart(k, now, trusted) => CommitStep(db, db', k, now, trusted);
      case DoFinalizeRequest(k, m, claimId, trusted) => FinalizeStep(db, db', k, m, claimId, trusted);
      case DoClaimFixture(k, claimId, now, contained) => ClaimStep(db, db', k, claimId, now, contained);
      case DoAbortSession(k, now, reasonGiven) => AbortStep(db, db', k, now, reasonGiven);
    }
  }

  lemma RecordStep(db: Database, db': Database, op: Op)
    requires Inv(db) && Step(db, op) == Ok(db')
    requires op.DoCreateEngagement? || op.DoCompilePolicy? || op.DoEvaluateIntent? || op.DoAuthorizeDestination?
      || op.DoMintGrant? || op.DoConsumeGrant? || op.DoRecordAttestation?
    ensures Inv(db') && Extends(db.authority, db'.authority)
  {
    match op {
      case DoCreateEngagement(e, expiresAt) => CreateStep(db, db', e, expiresAt);
      case DoCompilePolicy(p, row) => CompileStep(db, db', p, row);
      case DoEvaluateIntent(e, d, intent, allowed, trusted) => EvaluateStep(db, db', e, d, intent, allowed, trusted);
      case DoAuthorizeDestination(d, g, t, host, allowed, now, trusted) => AuthorizeStep(db, db', d, g, t, host, allowed, now, trusted);
      case DoMintGrant(d, g, audience, now, intentExpiresAt, timeoutSeconds, responseBytes, trusted) =>
        MintStep(db, db', d, g, audience, now, intentExpiresAt, timeoutSeconds, responseBytes, trusted);
      case DoConsumeGrant(g, audience, now, trusted) => ConsumeStep(db, db', g, audience, now, trusted);
      case DoRecordAttestation(t, e, expiresAt, trusted) => AttestStep(db, db', t, e, expiresAt, trusted);
    }
  }

  lemma PolicyStep(db: Database, db': Database, op: Op)
    requires Inv(db) && Step(db, op) == Ok(db') && (op.DoActivatePolicy? || op.DoRevokePolicy?)
    ensures Inv(db') && Extends(db.authority, db'.authority)
  {
    match op {
      case DoActivatePolicy(p, now, trusted, current) => ActivateStep(db, db', p, now, trusted, current);
      case DoRevokePolicy(p, now, reasonGiven) => RevokeStep(db, db', p, now, reasonGiven);
    }
  }

  lemma SafetyStep(db: Database, db': Database, op: Op)
    requires Inv(db) && Step(db, op) == Ok(db')
    requires op.DoSetGlobalSafety? || op.DoRecoverStartup? || op.DoPauseAssessment? || op.DoResumeAssessment?
    ensures Inv(db') && Extends(db.authority, db'.authority)
  {
    match op {
      case DoSetGlobalSafety(status, now, reasonGiven) => GlobalStep(db, db', status, now, reasonGiven);
      case DoRecoverStartup(now) => HaltStep(db, GlobalPaused, now);
      case DoPauseAssessment(e, now, reasonGiven) => PauseStep(db, db', e, now, reasonGiven);
      case DoResumeAssessment(e, now, reasonGiven, trusted) => ResumeStep(db, db', e, now, reasonGiven, trusted);
    }
  }

  /** Every operation, accepted or refused, keeps the invariant and undoes neither use nor revocation. */
  lemma StepKeepsInvariant(db: Database, op: Op)
    requires Inv(db)
    ensures Inv(After(db, op)) && Extends(db.authority, After(db, op).authority)
  {
    match Step(db, op) {
      case Err(_) => ExtendsItself(db.authority);
      case Ok(db') =>
        if op.DoPrepareSession? || op.DoCommitStart? || op.DoFinalizeRequest? || op.DoClaimFixture? || op.DoAbortSession? { SessionStep(db, db', op); }
        else if op.DoActivatePolicy? || op.DoRevokePolicy? { PolicyStep(db, db', op); }
        else if op.DoSetGlobalSafety? || op.DoRecoverStartup? || op.DoPauseAssessment? || op.DoResumeAssessment? { SafetyStep(db, db', op); }
        else { RecordStep(db, db', op); }
    }
  }
}
