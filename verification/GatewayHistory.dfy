/** What the gateway tables remember: rows are never deleted, and every start ever made is counted. */
module GatewayHistory {
  import opened Common
  import opened AuthorityModel
  import opened GatewayInvariant
  import opened AuthorityInvariant
  import opened AuthorityRuns
  import opened AuthorityTheorems
  import opened RateTheorem
  import opened ResponseAccounting

  /**
   * The rows of session `k` are still there: what they were made of has not changed, a session that was
   * closed or aborted stays so, a start keeps its window, a result stays as it was recorded.
   */
  ghost predicate RowPersists(g: Gateway, g': Gateway, k: nat)
    requires Shaped(g) && Shaped(g') && k in g.sessions
  {
    && k in g'.sessions && g'.sessions[k].attestation == g.sessions[k].attestation
    && (g.sessions[k].status != Prepared ==> g'.sessions[k].status == g.sessions[k].status)
    && g'.reservations[k] == g.reservations[k].(status := g'.reservations[k].status)
    && g'.rates[k] == g.rates[k].(status := g'.rates[k].status)
    && (g.reservations[k].status != Held ==> g'.reservations[k].status == g.reservations[k].status)
    && (k in g.starts ==> k in g'.starts && g'.starts[k] == g.starts[k].(cancelled := g'.starts[k].cancelled)
                          && (g.starts[k].cancelled ==> g'.starts[k].cancelled))
    && (k in g.claims ==> k in g'.claims && g'.claims[k].claimId == g.claims[k].claimId)
    && (k in g.results ==> k in g'.results && g'.results[k] == g.results[k])
  }

  ghost predicate Persists(g: Gateway, g': Gateway)
    requires Shaped(g) && Shaped(g')
  {
    forall k {:trigger RowPersists(g, g', k)} :: k in g.sessions ==> RowPersists(g, g', k)
  }

  /** Nothing is lost, and exactly these starts are new. */
  ghost predicate Continues(g: Gateway, g': Gateway, added: set<nat>)
    requires Shaped(g) && Shaped(g')
  {
    && Persists(g, g') && g'.starts.Keys == g.starts.Keys + added && added <= g.sessions.Keys && added !! g.starts.Keys
  }

  lemma ContinuesItself(g: Gateway)
    requires Shaped(g)
    ensures Continues(g, g, {})
  {
  }

  lemma PersistsOn(g: Gateway, mid: Gateway, g': Gateway)
    requires Shaped(g) && Shaped(mid) && Shaped(g') && Persists(g, mid) && Persists(mid, g')
    ensures Persists(g, g')
  {
    forall k | k in g.sessions ensures RowPersists(g, g', k) {
      assert RowPersists(g, mid, k) && RowPersists(mid, g', k);
    }
  }

  // ---- Each kind of change ----

  lemma PreparedPersists(g: Gateway, g': Gateway, k: nat, grant: nat, e: nat, p: nat, host: string, b: Budgets, now: int, limit: int, t: nat)
    requires Shaped(g) && Shaped(g') && PreparedTables(g, g', k, grant, e, p, host, b, now, limit, t)
    ensures Continues(g, g', {})
  {
    forall j | j in g.sessions ensures RowPersists(g, g', j) {}
  }

  lemma StartedPersists(g: Gateway, g': Gateway, k: nat, start: Start)
    requires Shaped(g) && Shaped(g') && StartedTables(g, g', k, start) && g.reservations[k].status == Held
    ensures Continues(g, g', {k})
  {
    forall j | j in g.sessions ensures RowPersists(g, g', j) {}
  }

  lemma ClosedPersists(g: Gateway, g': Gateway, k: nat, m: Measurement)
    requires Shaped(g) && Shaped(g') && ClosedTables(g, g', k, m) && k !in g.results
    ensures Continues(g, g', {})
  {
    forall j | j in g.sessions ensures RowPersists(g, g', j) {}
  }

  lemma ClaimedPersists(g: Gateway, g': Gateway, k: nat, claim: Claim)
    requires Shaped(g) && Shaped(g') && k !in g.claims && g' == g.(claims := g.claims[k := claim])
    ensures Continues(g, g', {})
  {
    forall j | j in g.sessions ensures RowPersists(g, g', j) {}
  }

  lemma AbortedPersists(g: Gateway, g': Gateway, k: nat, now: int)
    requires Shaped(g) && Shaped(g') && AbortedTables(g, g', k, now) && g.reservations[k].status == Held
    ensures Continues(g, g', {})
  {
    forall j | j in g.sessions ensures RowPersists(g, g', j) {}
  }

  lemma SweptPersists(g: Gateway, g': Gateway, scope: Option<nat>, now: int)
    requires Shaped(g) && Shaped(g') && g' == Swept(g, scope, now)
    ensures Continues(g, g', {})
  {
    forall j | j in g.sessions ensures RowPersists(g, g', j) {
      SweptCellsHold(g, g', scope, now, j);
      SweptRowPersists(g, g', scope, j);
    }
    assert g'.starts.Keys == g.starts.Keys;
  }

  lemma SweptRowPersists(g: Gateway, g': Gateway, scope: Option<nat>, k: nat)
    requires Shaped(g) && Shaped(g') && k in g.sessions && SweptCells(g, g', scope, k)
    ensures RowPersists(g, g', k)
  {
  }

  // ---- Every operation ----

  /** The operation starts a request of the engagement. */
  ghost predicate Begins(db: Database, op: Op, e: nat)
    requires Referential(db)
  {
    && op.DoCommitStart? && CommitStart(db, op.key, op.now, op.trusted).Ok?
    && op.key in db.gateway.sessions && db.gateway.reservations[op.key].engagement == e
  }

  lemma PreparePersists(db: Database, db': Database, g: nat, d: nat, k: nat, now: int, trusted: bool)
    requires Inv(db) && Inv(db') && PrepareSession(db, g, d, k, now, trusted) == Ok(db')
    ensures Continues(db.gateway, db'.gateway, {})
  {
    PrepareFacts(db, db', g, d, k, now, trusted);
    var grant, destination := db.authority.grants[g], db.authority.destinations[d];
    var b := db.authority.policies[grant.policy].budgets;
    PreparedPersists(db.gateway, db'.gateway, k, g, grant.engagement, grant.policy, destination.host, b, now,
                     Min(b.responseBytes, grant.responseBytes), destination.attestation);
  }

  lemma CommitPersists(db: Database, db': Database, k: nat, now: int, trusted: bool)
    requires Inv(db) && Inv(db') && CommitStart(db, k, now, trusted) == Ok(db')
    ensures Continues(db.gateway, db'.gateway, {k})
  {
    CommitFacts(db, db', k, now, trusted);
    assert RowConsistent(db.gateway, k);
    StartedPersists(db.gateway, db'.gateway, k, db'.gateway.starts[k]);
  }

  lemma AbortPersists(db: Database, db': Database, k: nat, now: int, reasonGiven: bool)
    requires Inv(db) && Inv(db') && AbortSession(db, k, now, reasonGiven) == Ok(db')
    ensures Continues(db.gateway, db'.gateway, {})
  {
    LiveSessionCounted(db.gateway, k);
    assert RowConsistent(db.gateway, k);
    AbortFacts(db, db', k, now, reasonGiven);
    AbortedPersists(db.gateway, db'.gateway, k, now);
  }

  lemma ClosePersists(db: Database, db': Database, op: Op)
    requires Inv(db) && Inv(db') && Step(db, op) == Ok(db') && (op.DoFinalizeRequest? || op.DoClaimFixture?)
    ensures Continues(db.gateway, db'.gateway, {})
  {
    match op {
      case DoFinalizeRequest(k, m, claimId, trusted) =>
        FinalizeFacts(db, db', k, m, claimId, trusted);
        ClosedPersists(db.gateway, db'.gateway, k, m);
      case DoClaimFixture(k, claimId, now, contained) =>
        ClaimFacts(db, db', k, claimId, now, contained);
        ClaimedPersists(db.gateway, db'.gateway, k, Claim(claimId, Claimed));
    }
  }

  /** The start an operation adds. */
  ghost function Added(db: Database, op: Op): set<nat>
    requires Referential(db)
  {
    if op.DoCommitStart? && CommitStart(db, op.key, op.now, op.trusted).Ok? then {op.key} else {}
  }

  lemma SessionPersists(db: Database, db': Database, op: Op)
    requires Inv(db) && Inv(db') && Step(db, op) == Ok(db') && (op.DoPrepareSession? || op.DoCommitStart? || op.DoAbortSession?)
    ensures Continues(db.gateway, db'.gateway, Added(db, op))
  {
    match op {
      case DoPrepareSession(g, d, k, now, trusted) => PreparePersists(db, db', g, d, k, now, trusted);
      case DoCommitStart(k, now, trusted) => CommitPersists(db, db', k, now, trusted);
      case DoAbortSession(k, now, reasonGiven) => AbortPersists(db, db', k, now, reasonGiven);
    }
  }

  /** No operation deletes a gateway row or rewrites what it was made of; only a start adds a start. */
  lemma StepPersists(db: Database, op: Op)
    requires Inv(db) && Inv(After(db, op))
    ensures Continues(db.gateway, After(db, op).gateway, Added(db, op))
  {
    ContinuesItself(db.gateway);
    if Step(db, op).Ok? {
      var db' := Step(db, op).value;
      if SweepScope(db, op).Some? {
        SweepOps(db, db', op);
        SweptPersists(db.gateway, db'.gateway, SweepScope(db, op).value, Instant(op).value);
      } else if op.DoPrepareSession? || op.DoCommitStart? || op.DoAbortSession? {
        SessionPersists(db, db', op);
      } else if op.DoFinalizeRequest? || op.DoClaimFixture? {
        ClosePersists(db, db', op);
      } else {
        AuthorityOnly(db, db', op);
      }
    }
  }

  // ---- Whole runs ----

  /** Gateway rows persist over every run. */
  lemma {:induction false} RowsPersist(db: Database, ops: seq<Op>)
    requires Inv(db)
    ensures Persists(db.gateway, Run(db, ops).gateway)
    decreases |ops|
  {
    if ops == [] {
      ContinuesItself(db.gateway);
    } else {
      StepKeepsInvariant(db, ops[0]);
      StepPersists(db, ops[0]);
      RowsPersist(After(db, ops[0]), ops[1..]);
      PersistsOn(db.gateway, After(db, ops[0]).gateway, Run(After(db, ops[0]), ops[1..]).gateway);
    }
  }

  /** How often a run starts a request of the engagement. */
  ghost function StartCount(db: Database, ops: seq<Op>, e: nat): nat
    requires Inv(db)
    decreases |ops|
  {
    if ops == [] then 0
    else
      StepKeepsInvariant(db, ops[0]);
      (if Begins(db, ops[0], e) then 1 else 0) + StartCount(After(db, ops[0]), ops[1..], e)
  }

  /** The added starts that belong to the engagement. */
  ghost function OfEngagement(g: Gateway, keys: set<nat>, e: nat): set<nat>
    requires Shaped(g) && keys <= g.sessions.Keys
  {
    set k | k in keys && g.reservations[k].engagement == e
  }

  lemma BegunGrows(g: Gateway, g': Gateway, added: set<nat>, e: nat)
    requires Shaped(g) && Shaped(g') && Continues(g, g', added)
    ensures |Begun(g', e)| == |Begun(g, e)| + |OfEngagement(g, added, e)|
  {
    forall k: nat ensures k in Begun(g', e) <==> k in Begun(g, e) || k in OfEngagement(g, added, e) {
      if k in g.sessions { assert RowPersists(g, g', k); }
    }
    assert Begun(g', e) == Begun(g, e) + OfEngagement(g, added, e);
    assert Begun(g, e) !! OfEngagement(g, added, e);
  }

  lemma AddedCount(db: Database, op: Op, e: nat)
    requires Referential(db) && Added(db, op) <= db.gateway.sessions.Keys
    ensures |OfEngagement(db.gateway, Added(db, op), e)| == if Begins(db, op, e) then 1 else 0
  {
    if op.DoCommitStart? { OneOf(db.gateway, op.key, e); }
    NoneOf(db.gateway, e);
  }

  lemma OneOf(g: Gateway, k: nat, e: nat)
    requires Shaped(g)
    ensures k in g.sessions ==> OfEngagement(g, {k}, e) == if g.reservations[k].engagement == e then {k} else {}
  {
  }

  lemma NoneOf(g: Gateway, e: nat)
    requires Shaped(g)
    ensures OfEngagement(g, {}, e) == {}
  {
  }

  lemma StepBegins(db: Database, op: Op, e: nat)
    requires Inv(db) && Inv(After(db, op))
    ensures |Begun(After(db, op).gateway, e)| == |Begun(db.gateway, e)| + if Begins(db, op, e) then 1 else 0
  {
    StepPersists(db, op);
    BegunGrows(db.gateway, After(db, op).gateway, Added(db, op), e);
    AddedCount(db, op, e);
  }

  lemma {:induction false} RunBegins(db: Database, ops: seq<Op>, e: nat)
    requires Inv(db)
    ensures |Begun(Run(db, ops).gateway, e)| == |Begun(db.gateway, e)| + StartCount(db, ops, e)
    decreases |ops|
  {
    if ops != [] {
      StepKeepsInvariant(db, ops[0]);
      StepBegins(db, ops[0], e);
      RunBegins(After(db, ops[0]), ops[1..], e);
    }
  }

  /** The committed counter of an engagement is the number of requests ever started for it, over every run. */
  lemma CommittedCountsStarts(ops: seq<Op>, e: nat)
    ensures Inv(EMPTY)
    ensures var g := Run(EMPTY, ops).gateway;
      if e in g.accounts then g.accounts[e].committed == StartCount(EMPTY, ops, e) else StartCount(EMPTY, ops, e) == 0
  {
    EmptyInv();
    RunBegins(EMPTY, ops, e);
    assert Begun(EMPTY.gateway, e) == {};
    var db := Run(EMPTY, ops);
    if e in db.gateway.accounts { assert Balanced(db.gateway, e); }
    else {
      forall k | k in db.gateway.sessions ensures db.gateway.reservations[k].engagement != e { assert Accounted(db.gateway, k); }
      assert Begun(db.gateway, e) == {};
    }
  }
}
