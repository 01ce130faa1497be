/** A run that opens a session, starts its request and finishes it: the states the theorems speak of exist. */
module AuthorityWitness {
  import opened Common
  import opened AuthorityModel
  import opened GatewayInvariant
  import opened AuthorityInvariant
  import opened AuthorityRuns
  import opened AuthorityTheorems
  import opened GatewaySweep
  import opened ResponseAccounting

  const BUDGETS: Budgets := Budgets(2, 1, 1.0, 1.0, 1, 100)

  lemma RunOne(db: Database, op: Op, db': Database)
    requires Inv(db) && Step(db, op) == Ok(db')
    ensures Inv(db') && Run(db, [op]) == db'
  {
    StepKeepsInvariant(db, op);
    assert [op][1..] == [];
    assert Run(db', []) == db';
  }

  lemma {:induction false} RunConcat(db: Database, a: seq<Op>, b: seq<Op>)
    requires Inv(db)
    ensures Run(db, a + b) == Run(Run(db, a), b)
    decreases |a|
  {
    if a == [] {
      assert a + b == b;
    } else {
      StepKeepsInvariant(db, a[0]);
      assert (a + b)[1..] == a[1..] + b;
      RunConcat(After(db, a[0]), a[1..], b);
    }
  }

  /** Running on from a reachable database leads to a reachable one. */
  lemma RunOn(db: Database, more: seq<Op>)
    requires Reachable(db) && Inv(db)
    ensures Reachable(Run(db, more))
  {
    EmptyInv();
    var ops :| db == Run(EMPTY, ops);
    RunConcat(EMPTY, ops, more);
  }

  lemma ReachesOn(db: Database, op: Op, db': Database)
    requires Reachable(db) && Inv(db) && Step(db, op) == Ok(db')
    ensures Reachable(db') && Inv(db')
  {
    RunOne(db, op, db');
    RunOn(db, [op]);
  }

  const A1: Authority := Authority(GlobalActive, map[0 := Engagement(Draft, None, 0, 1000)], map[], map[], map[], map[], map[])
  const P: Policy := Policy(0, V1, false, false, BUDGETS, None, 1000)
  const A2: Authority := A1.(policies := map[0 := P])
  const A3: Authority := A2.(policies := map[0 := P.(activated := true)], engagements := map[0 := Engagement(Active, Some(0), 0, 1000)])
  const A4: Authority := A3.(decisions := map[0 := Decision(0, 0, 0, true)])
  const A5: Authority := A4.(grants := map[0 := Grant(0, 0, 0, 0, 0, EgressGateway, 0, 1000, 1, 100, false, false)])
  const A6: Authority := A5.(attestations := map[0 := Attestation(0, 0, 1000, true)])
  const A7: Authority := A6.(destinations := map[0 := Destination(0, 0, "h", true)])

  function Db(a: Authority): Database { Database(a, EMPTY.gateway) }

  lemma Created()
    ensures Inv(Db(A1)) && Reachable(Db(A1))
  {
    EmptyInv();
    assert Run(EMPTY, []) == EMPTY;
    var op := DoCreateEngagement(0, 1000);
    assert Step(EMPTY, op) == Ok(Db(A1));
    ReachesOn(EMPTY, op, Db(A1));
  }

  lemma Compiled()
    ensures Inv(Db(A2)) && Reachable(Db(A2))
  {
    Created();
    var op := DoCompilePolicy(0, P);
    assert A1.policies[0 := P] == A2.policies;
    assert Step(Db(A1), op) == Ok(Db(A2));
    ReachesOn(Db(A1), op, Db(A2));
  }

  lemma Activated()
    ensures Inv(Db(A3)) && Reachable(Db(A3))
  {
    Compiled();
    SweepSucceeds(EMPTY.gateway, Some(0), 0);
    assert Swept(EMPTY.gateway, Some(0), 0) == EMPTY.gateway;
    assert RetirePrevious(A2, 0) == A2;
    assert InstallPolicy(A2, 0) == A3 by {
      assert A2.policies[0 := P.(activated := true)] == A3.policies;
      assert A2.engagements[0 := Engagement(Active, Some(0), 0, 1000)] == A3.engagements;
    }
    assert Step(Db(A2), DoActivatePolicy(0, 0, true, true)) == Ok(Db(A3));
    ReachesOn(Db(A2), DoActivatePolicy(0, 0, true, true), Db(A3));
  }

  lemma Evaluated()
    ensures Inv(Db(A4)) && Reachable(Db(A4))
  {
    Activated();
    var op := DoEvaluateIntent(0, 0, 0, true, true);
    assert A3.decisions[0 := Decision(0, 0, 0, true)] == A4.decisions;
    assert Step(Db(A3), op) == Ok(Db(A4));
    ReachesOn(Db(A3), op, Db(A4));
  }

  lemma Minted()
    ensures Inv(Db(A5)) && Reachable(Db(A5))
  {
    Evaluated();
    var op := DoMintGrant(0, 0, EgressGateway, 0, 1000, 1, 100, true);
    assert A4.grants[0 := Grant(0, 0, 0, 0, 0, EgressGateway, 0, 1000, 1, 100, false, false)] == A5.grants;
    assert Step(Db(A4), op) == Ok(Db(A5));
    ReachesOn(Db(A4), op, Db(A5));
  }

  lemma Attested()
    ensures Inv(Db(A6)) && Reachable(Db(A6))
  {
    Minted();
    var op := DoRecordAttestation(0, 0, 1000, true);
    assert InvalidateAttestations(A5, Some(0)) == A5;
    assert A5.attestations[0 := Attestation(0, 0, 1000, true)] == A6.attestations;
    assert Step(Db(A5), op) == Ok(Db(A6));
    ReachesOn(Db(A5), op, Db(A6));
  }

  lemma Authorized()
    ensures Inv(Db(A7)) && Reachable(Db(A7))
  {
    Attested();
    var op := DoAuthorizeDestination(0, 0, 0, "h", true, 0, true);
    assert A6.destinations[0 := Destination(0, 0, "h", true)] == A7.destinations;
    assert Step(Db(A6), op) == Ok(Db(A7));
    ReachesOn(Db(A6), op, Db(A7));
  }

  const ALL: BucketId := BucketId(0, AllHosts)
  const ONE: BucketId := BucketId(0, Host("h"))
  const DRAINED: Bucket := Bucket(0, 1.0, 1, 0.0, 0)

  const G8: Gateway := Gateway(
    map[0 := Account(0, 2, 1, 0, 1, 1)], map[ALL := DRAINED, ONE := DRAINED], map[0 := Reservation(0, 0, 0, 100, Held)],
    map[0 := RateHold(0, 0, "h", Held)], map[0 := Session(0, Prepared)], map[], map[], map[])

  lemma TokensTaken()
    ensures TakeTokens(map[], 0, 0, "h", BUDGETS, 0) == Ok(G8.buckets)
  {
    var debited: map<BucketId, Bucket> := map[ALL := DRAINED];
    assert (map[])[ALL := DRAINED] == debited;
    assert ReserveBucket(map[], ALL, 0, 1.0, 1, 0) == Ok(debited);
    assert debited[ONE := DRAINED] == G8.buckets;
    assert ReserveBucket(debited, ONE, 0, 1.0, 1, 0) == Ok(G8.buckets);
  }

  lemma SessionOpens()
    ensures OpenSession(EMPTY.gateway, 0, A7.grants[0], A7.destinations[0], BUDGETS, 0, 0) == Ok(G8)
  {
    TokensTaken();
    var g := EMPTY.gateway;
    assert g.accounts[0 := Account(0, 2, 1, 0, 1, 1)] == G8.accounts;
    assert g.reservations[0 := Reservation(0, 0, 0, 100, Held)] == G8.reservations;
    assert g.rates[0 := RateHold(0, 0, "h", Held)] == G8.rates;
    assert g.sessions[0 := Session(0, Prepared)] == G8.sessions;
  }

  lemma SessionPrepares()
    requires Referential(Db(A7))
    ensures Step(Db(A7), DoPrepareSession(0, 0, 0, 0, true)) == Ok(Database(A7, G8))
  {
    SessionOpens();
  }

  /** A reachable database with an open session, both its buckets drained and nothing started. */
  lemma SessionReachable()
    ensures Inv(Database(A7, G8)) && Reachable(Database(A7, G8))
  {
    Authorized();
    SessionPrepares();
    ReachesOn(Db(A7), DoPrepareSession(0, 0, 0, 0, true), Database(A7, G8));
  }

  const START: Start := Start(0, 1000, false)
  const A9: Authority := A7.(grants := map[0 := A7.grants[0].(used := true)])
  const G9: Gateway := G8.(
    accounts := map[0 := Account(0, 2, 0, 1, 1, 1)], reservations := map[0 := Reservation(0, 0, 0, 100, Spent)],
    rates := map[0 := RateHold(0, 0, "h", Spent)], starts := map[0 := START])

  lemma RequestStarts()
    ensures StartRequest(A7, G8, 0, START) == Ok(Database(A9, G9))
  {
    assert A7.grants[0 := A7.grants[0].(used := true)] == A9.grants;
    assert G8.accounts[0 := Account(0, 2, 0, 1, 1, 1)] == G9.accounts;
    assert G8.reservations[0 := Reservation(0, 0, 0, 100, Spent)] == G9.reservations;
    assert G8.rates[0 := RateHold(0, 0, "h", Spent)] == G9.rates;
    assert G8.starts[0 := START] == G9.starts;
  }

  lemma StartChecks()
    requires Referential(Database(A7, G8))
    ensures RequestDeadline(A7.grants[0], A7.engagements[0], A7.attestations[0], ScheduledDeadline(A7.policies[0], 0), 0) == 1000
    ensures MayStart(A7, G8, 0, 1000, 0, true)
  {
  }

  lemma StartCommits()
    requires Referential(Database(A7, G8))
    ensures CommitStart(Database(A7, G8), 0, 0, true) == Ok(Database(A9, G9))
  {
    RequestStarts();
    StartChecks();
  }

  lemma CommitIsStep(db: Database, k: nat, now: int, trusted: bool)
    requires Referential(db)
    ensures Step(db, DoCommitStart(k, now, trusted)) == CommitStart(db, k, now, trusted)
  {
  }

  /** From there the request can be started: the grant is spent. */
  lemma StartReachable()
    ensures Inv(Database(A9, G9)) && Reachable(Database(A9, G9)) && A9.grants[0].used
  {
    SessionReachable();
    StartCommits();
    CommitIsStep(Database(A7, G8), 0, 0, true);
    ReachesOn(Database(A7, G8), DoCommitStart(0, 0, true), Database(A9, G9));
  }

  const RESULT: Measurement := Measurement(Completed, 0, 0, 5)
  const G10: Gateway := G9.(
    accounts := map[0 := Account(0, 2, 0, 1, 1, 0)], sessions := map[0 := Session(0, Closed)], results := map[0 := RESULT])

  lemma RequestCloses()
    ensures CloseRequest(Database(A9, G9), 0, RESULT) == Ok(Database(A9, G10))
  {
    assert G9.accounts[0 := Account(0, 2, 0, 1, 1, 0)] == G10.accounts;
    assert G9.sessions[0 := Session(0, Closed)] == G10.sessions;
    assert G9.results[0 := RESULT] == G10.results;
  }

  lemma RequestFinishes()
    requires Referential(Database(A9, G9))
    ensures Step(Database(A9, G9), DoFinalizeRequest(0, RESULT, None, true)) == Ok(Database(A9, G10))
  {
    RequestCloses();
  }

  lemma FinishReachable()
    ensures Inv(Database(A9, G10)) && Reachable(Database(A9, G10))
  {
    StartReachable();
    RequestFinishes();
    ReachesOn(Database(A9, G9), DoFinalizeRequest(0, RESULT, None, true), Database(A9, G10));
  }

  /** The start of the finished request is still labelled committed, although no session is open. */
  lemma FinishedStartCommitted()
    ensures Shaped(G10) && StartsLabelled(G10) && CountersChecked(G10)
    ensures Committed(G10, Some(0)) == {0} && Idle(G10, Some(0)) == {} && Prepareds(G10, Some(0)) == {}
  {
  }

  /** The sweep of a pause in this reachable state aborts no session, and reports one. */
  method MiscountedSweep(now: int) returns (count: nat)
    ensures Reachable(Database(A9, G10)) && Prepareds(G10, Some(0)) == {} && count == 1
  {
    FinishReachable();
    FinishedStartCommitted();
    SweepSucceeds(G10, Some(0), now);
    var swept, reported := AbortGatewaySessions(G10, Some(0), now);
    count := reported;
  }
}
