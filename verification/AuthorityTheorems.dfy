/** What the invariant means for every run of the authority service. */
module AuthorityTheorems {
  import opened Common
  import opened AuthorityModel
  import opened GatewayInvariant
  import opened AuthorityInvariant
  import opened AuthorityRuns
  import opened ResponseAccounting
  import TestingSchedule

  lemma EmptyInv()
    ensures Inv(EMPTY)
  {
  }

  /** The database after a sequence of operations, each of which may be refused. */
  ghost function Run(db: Database, ops: seq<Op>): (end: Database)
    requires Inv(db)
    ensures Inv(end)
    decreases |ops|
  {
    if ops == [] then db
    else
      StepKeepsInvariant(db, ops[0]);
      Run(After(db, ops[0]), ops[1..])
  }

  /** A database some sequence of operations leads to from the empty one. */
  ghost predicate Reachable(db: Database) {
    EmptyInv();
    exists ops :: db == Run(EMPTY, ops)
  }

  lemma ReachableInv(db: Database)
    requires Reachable(db)
    ensures Inv(db)
  {
    EmptyInv();
    var ops :| db == Run(EMPTY, ops);
  }

  // ---- Conservation ----

  /** The account of an engagement is the tally of its sessions and starts, and stays within its limits. */
  lemma LedgerConservation(db: Database, e: nat)
    requires Reachable(db) && e in db.authority.engagements
    ensures Inv(db)
    ensures e in db.gateway.accounts ==>
      var acc := db.gateway.accounts[e];
      && acc.reserved == |Waiting(db.gateway, e)| && acc.active == |Open(db.gateway, e)| && acc.committed == |Begun(db.gateway, e)|
      && acc.reserved + acc.committed <= acc.requestLimit && acc.active <= acc.connectionLimit
    ensures e !in db.gateway.accounts ==> Open(db.gateway, e) == {} && Begun(db.gateway, e) == {}
  {
    ReachableInv(db);
    var g := db.gateway;
    if e in g.accounts { assert Balanced(g, e); }
    else { assert forall k :: k in g.sessions ==> Accounted(g, k); }
  }

  // ---- The sweep is never in the way ----

  lemma StopNeverBlocked(db: Database, status: GlobalStatus, e: nat, p: nat, now: int)
    requires Reachable(db)
    ensures Inv(db)
    ensures SetGlobalSafety(db, status, now, true).Ok? && RecoverStartup(db, now).Ok?
    ensures e in db.authority.engagements ==> PauseAssessment(db, e, now, true).Ok?
    ensures RevokePolicy(db, p, now, true).Ok? <==>
      p in db.authority.policies && (db.authority.policies[p].version == V2 ==> Live(db.authority.policies[p]))
  {
    ReachableInv(db);
    if status != GlobalActive { HaltStep(db, status, now); }
    HaltStep(db, GlobalPaused, now);
    if e in db.authority.engagements {
      SweepSucceeds(db.gateway, Some(e), now);
    }
    if p in db.authority.policies {
      SweepSucceeds(db.gateway, Some(db.authority.policies[p].engagement), now);
    }
  }

  lemma ActivationCodes(db: Database, p: nat, now: int, trusted: bool, current: bool)
    requires Referential(db)
    requires p in db.authority.policies ==> Sweep(db.gateway, Some(db.authority.policies[p].engagement), now).Ok?
    ensures ActivatePolicy(db, p, now, trusted, current).Err? ==>
      ActivatePolicy(db, p, now, trusted, current).error !in {RateStateInvalid, IntegrityFailure}
  {
  }

  lemma AbortCodes(db: Database, k: nat, now: int)
    requires Referential(db)
    requires k in db.gateway.sessions && db.gateway.sessions[k].status == Prepared && k !in db.gateway.starts ==>
      && BucketsMatch(db.gateway.buckets, db.gateway.rates[k]) && db.gateway.reservations[k].engagement in db.gateway.accounts
      && db.gateway.accounts[db.gateway.reservations[k].engagement].reserved >= 1
      && db.gateway.accounts[db.gateway.reservations[k].engagement].active >= 1
    ensures AbortSession(db, k, now, true).Ok? <==>
      k in db.gateway.sessions && db.gateway.sessions[k].status == Prepared && k !in db.gateway.starts
  {
  }

  /** Neither activation nor a single abort ever meets a broken rate state or a negative counter. */
  lemma RateStateNeverInvalid(db: Database, p: nat, k: nat, now: int, trusted: bool, current: bool)
    requires Reachable(db)
    ensures Inv(db)
    ensures ActivatePolicy(db, p, now, trusted, current).Err? ==>
      ActivatePolicy(db, p, now, trusted, current).error !in {RateStateInvalid, IntegrityFailure}
    ensures AbortSession(db, k, now, true).Ok? <==>
      k in db.gateway.sessions && db.gateway.sessions[k].status == Prepared && k !in db.gateway.starts
  {
    ReachableInv(db);
    if p in db.authority.policies { SweepSucceeds(db.gateway, Some(db.authority.policies[p].engagement), now); }
    ActivationCodes(db, p, now, trusted, current);
    if k in db.gateway.sessions && db.gateway.sessions[k].status == Prepared { LiveSessionCounted(db.gateway, k); }
    AbortCodes(db, k, now);
  }

  // ---- Quiescence ----

  /** No live grant, valid attestation, open session or pending claim belongs to the engagement. */
  ghost predicate Quiet(db: Database, e: nat)
    requires Referential(db)
  {
    && (forall g :: g in db.authority.grants && db.authority.grants[g].engagement == e ==> !Alive(db.authority.grants[g]))
    && (forall t :: t in db.authority.attestations && db.authority.attestations[t].engagement == e ==> !db.authority.attestations[t].valid)
    && (forall k :: k in db.gateway.sessions && db.gateway.reservations[k].engagement == e ==> db.gateway.sessions[k].status != Prepared)
    && (forall k :: k in db.gateway.claims && db.gateway.reservations[k].engagement == e ==> db.gateway.claims[k].status != Claimed)
  }

  /** Whenever the engagement, or everything, is not active, nothing of it is alive. */
  lemma Quiescence(db: Database, e: nat)
    requires Reachable(db)
    ensures Inv(db)
    ensures db.authority.global != GlobalActive || e !in db.authority.engagements || db.authority.engagements[e].status != Active ==> Quiet(db, e)
  {
    ReachableInv(db);
    var a, g := db.authority, db.gateway;
    if a.global != GlobalActive || e !in a.engagements || a.engagements[e].status != Active {
      forall h | h in a.grants && a.grants[h].engagement == e ensures !Alive(a.grants[h]) { assert GrantBound(a, h); }
      forall t | t in a.attestations && a.attestations[t].engagement == e ensures !a.attestations[t].valid { assert AttestationBound(a, t); }
      forall k | k in g.sessions && g.reservations[k].engagement == e
        ensures g.sessions[k].status != Prepared
        ensures k in g.claims ==> g.claims[k].status != Claimed
      {
        assert RowAgrees(a, g, k);
        assert RowConsistent(g, k);
      }
    }
  }

  /** A live grant is bound to the one live policy of its engagement and to the current epoch. */
  lemma LiveGrantBinding(db: Database, g: nat, q: nat)
    requires Reachable(db) && g in db.authority.grants && Alive(db.authority.grants[g])
    requires q in db.authority.policies && db.authority.policies[q].engagement == db.authority.grants[g].engagement
    ensures var a, grant := db.authority, db.authority.grants[g];
      && InForce(a, grant.engagement, grant.policy) && grant.epoch == a.engagements[grant.engagement].epoch
      && (Live(a.policies[q]) <==> q == grant.policy)
  {
    ReachableInv(db);
    var a, grant := db.authority, db.authority.grants[g];
    assert GrantBound(a, g);
    assert ActiveIsLive(a, grant.engagement);
    assert NoRival(a, grant.policy, q);
  }

  /** A grant backs at most one reservation, hence one session, start and result. */
  lemma OneSessionPerGrant(db: Database, j: nat, k: nat)
    requires Reachable(db) && j in db.gateway.reservations && k in db.gateway.reservations
    requires db.gateway.reservations[j].grant == db.gateway.reservations[k].grant
    ensures j == k
  {
    ReachableInv(db);
    assert Apart(db.gateway, j, k);
  }

  // ---- Single use ----

  /** The operation spends grant `g`, directly or by starting its request. */
  ghost predicate Spends(db: Database, op: Op, g: nat)
    requires Referential(db)
  {
    && Step(db, op).Ok?
    && ((op.DoConsumeGrant? && op.grant == g)
        || (op.DoCommitStart? && op.key in db.gateway.sessions && db.gateway.reservations[op.key].grant == g))
  }

  ghost function SpendCount(db: Database, ops: seq<Op>, g: nat): nat
    requires Inv(db)
    decreases |ops|
  {
    if ops == [] then 0
    else
      StepKeepsInvariant(db, ops[0]);
      (if Spends(db, ops[0], g) then 1 else 0) + SpendCount(After(db, ops[0]), ops[1..], g)
  }

  lemma SpendingNeedsLife(db: Database, op: Op, g: nat)
    requires Referential(db) && Spends(db, op, g)
    ensures g in db.authority.grants && Alive(db.authority.grants[g])
    ensures g in After(db, op).authority.grants && After(db, op).authority.grants[g].used
  {
    var db' := Step(db, op).value;
    match op {
      case DoConsumeGrant(h, audience, now, trusted) => ConsumeFacts(db, db', h, audience, now, trusted);
      case DoCommitStart(k, now, trusted) => CommitFacts(db, db', k, now, trusted);
    }
  }

  /** What is used or revoked is never spent again, whatever happens next: resuming does not revive it. */
  lemma {:induction false} DeadStaysDead(db: Database, ops: seq<Op>, g: nat)
    requires Inv(db) && g in db.authority.grants && !Alive(db.authority.grants[g])
    ensures SpendCount(db, ops, g) == 0
    decreases |ops|
  {
    if ops != [] {
      if Spends(db, ops[0], g) { SpendingNeedsLife(db, ops[0], g); }
      StepKeepsInvariant(db, ops[0]);
      var next := After(db, ops[0]);
      assert GrantAges(db.authority.grants[g], next.authority.grants[g]);
      DeadStaysDead(next, ops[1..], g);
    }
  }

  /** Over any run a grant is spent at most once, through the direct and the gateway path together. */
  lemma {:induction false} SingleUse(db: Database, ops: seq<Op>, g: nat)
    requires Inv(db)
    ensures SpendCount(db, ops, g) <= 1
    decreases |ops|
  {
    if ops != [] {
      StepKeepsInvariant(db, ops[0]);
      var next := After(db, ops[0]);
      if Spends(db, ops[0], g) {
        SpendingNeedsLife(db, ops[0], g);
        DeadStaysDead(next, ops[1..], g);
      } else {
        SingleUse(next, ops[1..], g);
      }
    }
  }

  lemma PausedTables(db: Database, e: nat, now: int)
    requires Inv(db) && e in db.authority.engagements
    ensures Step(db, DoPauseAssessment(e, now, true)).Ok? && After(db, DoPauseAssessment(e, now, true)).authority == PausedAuthority(db.authority, e)
  {
    SweepSucceeds(db.gateway, Some(e), now);
  }

  /** Pausing an assessment kills its grants for good. */
  lemma PauseIsFinal(db: Database, e: nat, now: int, g: nat, later: seq<Op>)
    requires Reachable(db) && g in db.authority.grants && db.authority.grants[g].engagement == e
    ensures Inv(db) && Inv(After(db, DoPauseAssessment(e, now, true)))
    ensures SpendCount(After(db, DoPauseAssessment(e, now, true)), later, g) == 0
  {
    ReachableInv(db);
    PausedTables(db, e, now);
    StepKeepsInvariant(db, DoPauseAssessment(e, now, true));
    PausedGrantDead(db.authority, e, g);
    DeadStaysDead(After(db, DoPauseAssessment(e, now, true)), later, g);
  }

  lemma PausedGrantDead(a: Authority, e: nat, g: nat)
    requires e in a.engagements && g in a.grants && a.grants[g].engagement == e
    ensures g in PausedAuthority(a, e).grants && !Alive(PausedAuthority(a, e).grants[g])
  {
  }

  /** So does a global pause or stop, for every grant there is. */
  lemma HaltIsFinal(db: Database, status: GlobalStatus, now: int, g: nat, later: seq<Op>)
    requires Reachable(db) && g in db.authority.grants && status != GlobalActive
    ensures Inv(db) && Inv(After(db, DoSetGlobalSafety(status, now, true)))
    ensures SpendCount(After(db, DoSetGlobalSafety(status, now, true)), later, g) == 0
  {
    ReachableInv(db);
    HaltedStaysDead(db, DoSetGlobalSafety(status, now, true), status, now, g, later);
  }

  /** And so does a restart of the service. */
  lemma RestartIsFinal(db: Database, now: int, g: nat, later: seq<Op>)
    requires Reachable(db) && g in db.authority.grants
    ensures Inv(db) && Inv(After(db, DoRecoverStartup(now)))
    ensures SpendCount(After(db, DoRecoverStartup(now)), later, g) == 0
  {
    ReachableInv(db);
    HaltedStaysDead(db, DoRecoverStartup(now), GlobalPaused, now, g, later);
  }

  lemma HaltedStaysDead(db: Database, op: Op, status: GlobalStatus, now: int, g: nat, later: seq<Op>)
    requires Inv(db) && g in db.authority.grants && Step(db, op) == HaltEverything(db, status, now)
    ensures Inv(After(db, op)) && SpendCount(After(db, op), later, g) == 0
  {
    StepKeepsInvariant(db, op);
    HaltStep(db, status, now);
    HaltedGrantDead(db.authority, status, g);
    DeadStaysDead(After(db, op), later, g);
  }

  lemma HaltedGrantDead(a: Authority, status: GlobalStatus, g: nat)
    requires g in a.grants
    ensures g in HaltedAuthority(a, status).grants && !Alive(HaltedAuthority(a, status).grants[g])
  {
  }

  // ---- Requests stay inside the testing schedule ----

  /**
   * The whole window of a started request is admitted by its policy's schedule, until its deadline, if
   * and only if it is at the instants inside at which one of the schedule's zones changes its offset.
   */
  lemma RequestInsideSchedule(db: Database, k: nat)
    requires Reachable(db) && k in db.gateway.starts
    ensures Inv(db)
    ensures var schedule, start := db.authority.policies[db.gateway.reservations[k].policy].schedule, db.gateway.starts[k];
      schedule.Some? && TestingSchedule.WellFormed(schedule.value) && TestingSchedule.FaithfulZones(schedule.value) ==>
      ((forall t {:trigger TestingSchedule.OpenUntil(schedule.value, t, start.deadline)} ::
          start.committedAt <= t < start.deadline ==> TestingSchedule.OpenUntil(schedule.value, t, start.deadline)) <==>
       (forall c {:trigger TestingSchedule.ShiftsAt(schedule.value, c)} ::
          start.committedAt < c < start.deadline && TestingSchedule.ShiftsAt(schedule.value, c)
          ==> TestingSchedule.OpenUntil(schedule.value, c, start.deadline)))
  {
    ReachableInv(db);
    assert RowAgrees(db.authority, db.gateway, k);
    var schedule, start := db.authority.policies[db.gateway.reservations[k].policy].schedule, db.gateway.starts[k];
    if schedule.Some? && TestingSchedule.WellFormed(schedule.value) && TestingSchedule.FaithfulZones(schedule.value) {
      TestingSchedule.DeadlineSoundIff(schedule.value, start.committedAt, start.deadline);
    }
  }
}
