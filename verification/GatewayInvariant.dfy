/**
 * What every reachable state of the gateway tables satisfies: the three status columns of a
 * session agree, the budget account equals the sessions it counts, and every held rate token can
 * be handed back to the bucket it came from.
 */
module GatewayInvariant {
  import opened Common
  import opened AuthorityModel
  import opened ResponseAccounting

  /** The session, its reservation, its rate hold, its start, its claim and its result tell one story. */
  ghost predicate RowConsistent(g: Gateway, k: nat)
    requires Shaped(g) && k in g.sessions
  {
    var s, r, h := g.sessions[k].status, g.reservations[k], g.rates[k];
    && r.engagement == h.engagement && r.policy == h.policy
    && (k !in g.starts ==> (s == Prepared && r.status == h.status == Held) || (s == Aborted && r.status == h.status == Released))
    && (k in g.starts ==> r.status == h.status == Spent)
    && (k in g.starts && s == Prepared ==> !g.starts[k].cancelled)
    && (k in g.starts && s == Aborted ==> g.starts[k].cancelled)
    && (s == Closed <==> k in g.results)
    && (k in g.claims && g.claims[k].status == Claimed ==> s == Prepared)
    && (k in g.claims && g.claims[k].status == ClaimCompleted ==> s == Closed)
  }

  ghost predicate RowsConsistent(g: Gateway)
    requires Shaped(g)
  {
    forall k {:trigger RowConsistent(g, k)} :: k in g.sessions ==> RowConsistent(g, k)
  }

  /** Reserved counts waiting sessions, active counts open ones, committed counts every start ever made. */
  ghost predicate Balanced(g: Gateway, e: nat)
    requires Shaped(g) && e in g.accounts
  {
    var acc := g.accounts[e];
    && acc.reserved == |Waiting(g, e)|
    && acc.active == |Open(g, e)|
    && acc.committed == |Begun(g, e)|
    && acc.reserved + acc.committed <= acc.requestLimit
    && acc.active <= acc.connectionLimit
  }

  ghost predicate Accounted(g: Gateway, k: nat)
    requires Shaped(g) && k in g.sessions
  {
    g.reservations[k].engagement in g.accounts
  }

  ghost predicate LedgerBalanced(g: Gateway)
    requires Shaped(g)
  {
    && (forall e {:trigger Balanced(g, e)} :: e in g.accounts ==> Balanced(g, e))
    && (forall k {:trigger Accounted(g, k)} :: k in g.sessions ==> Accounted(g, k))
  }

  ghost predicate BucketBounded(b: Bucket) {
    0.0 <= b.tokens <= b.capacity as real && b.rate > 0.0
  }

  ghost predicate BucketsBounded(g: Gateway) {
    forall id {:trigger BucketBounded(g.buckets[id])} :: id in g.buckets ==> BucketBounded(g.buckets[id])
  }

  ghost predicate HoldsBacked(g: Gateway) {
    forall k {:trigger Backed(g, k)} :: k in g.rates ==> Backed(g, k)
  }

  ghost predicate Backed(g: Gateway, k: nat)
    requires k in g.rates
  {
    g.rates[k].status == Held ==> BucketsMatch(g.buckets, g.rates[k])
  }

  ghost predicate OneReservationPerGrant(g: Gateway) {
    forall j, k {:trigger Apart(g, j, k)} :: j in g.reservations && k in g.reservations ==> Apart(g, j, k)
  }

  ghost predicate Apart(g: Gateway, j: nat, k: nat)
    requires j in g.reservations && k in g.reservations
  {
    g.reservations[j].grant == g.reservations[k].grant ==> j == k
  }

  ghost predicate GatewayInv(g: Gateway) {
    Shaped(g) && RowsConsistent(g) && LedgerBalanced(g) && BucketsBounded(g) && HoldsBacked(g) && OneReservationPerGrant(g)
  }

  // ---- The sweep ----

  /** The sweep cannot be blocked: no bucket is missing or foreign, and no counter goes below zero. */
  lemma SweepSucceeds(g: Gateway, scope: Option<nat>, now: int)
    requires GatewayInv(g)
    ensures Sweep(g, scope, now) == Ok(Swept(g, scope, now))
  {
    forall k | k in Refundable(g, scope)
      ensures BucketsMatch(g.buckets, g.rates[k])
    {
      assert Backed(g, k);
    }
    forall e | e in g.accounts
      ensures SweptAccount(g, e).reserved == 0 && SweptAccount(g, e).active == 0
    {
      assert Balanced(g, e);
    }
  }

  lemma RefundBounded(b: Bucket, n: nat, now: int)
    requires BucketBounded(b)
    ensures BucketBounded(Refund(b, n, now))
  {
    var at := Max(now, b.updatedAt);
    assert Seconds(at - b.updatedAt) >= 0.0;
    assert Seconds(at - b.updatedAt) * b.rate >= 0.0;
  }

  /** How the sweep leaves the row of one session. */
  ghost predicate SweptCells(g: Gateway, g': Gateway, scope: Option<nat>, k: nat)
    requires Shaped(g) && Shaped(g') && k in g.sessions
  {
    var hit := InScope(scope, g.reservations[k].engagement);
    && k in g'.sessions
    && g'.sessions[k] == g.sessions[k].(status := if hit && g.sessions[k].status == Prepared then Aborted else g.sessions[k].status)
    && g'.reservations[k] == g.reservations[k].(status := if hit && g.reservations[k].status == Held then Released else g.reservations[k].status)
    && g'.rates[k] == g.rates[k].(status := if k in Refundable(g, scope) then Released else g.rates[k].status)
    && (k in g'.starts <==> k in g.starts) && (k in g.starts ==> g'.starts[k] == g.starts[k].(cancelled := hit || g.starts[k].cancelled))
    && (k in g'.claims <==> k in g.claims)
    && (k in g.claims ==> g'.claims[k] == g.claims[k].(status := if hit && g.claims[k].status == Claimed then Abandoned else g.claims[k].status))
    && g'.results == g.results
  }

  lemma SweptCellsHold(g: Gateway, g': Gateway, scope: Option<nat>, now: int, k: nat)
    requires Shaped(g) && Shaped(g') && g' == Swept(g, scope, now) && k in g.sessions
    ensures SweptCells(g, g', scope, k)
  {
  }

  lemma SweptRow(g: Gateway, g': Gateway, scope: Option<nat>, k: nat)
    requires Shaped(g) && Shaped(g') && k in g.sessions && RowConsistent(g, k) && SweptCells(g, g', scope, k)
    ensures RowConsistent(g', k)
  {
  }

  lemma SweptShape(g: Gateway, scope: Option<nat>, now: int)
    requires Shaped(g)
    ensures Shaped(Swept(g, scope, now))
  {
    var g' := Swept(g, scope, now);
    assert g'.reservations.Keys == g.reservations.Keys;
    assert g'.rates.Keys == g.rates.Keys;
    assert g'.sessions.Keys == g.sessions.Keys;
    assert g'.starts.Keys == g.starts.Keys;
    assert g'.claims.Keys == g.claims.Keys;
  }

  lemma SweptRows(g: Gateway, scope: Option<nat>, now: int)
    requires Shaped(g) && RowsConsistent(g) && Shaped(Swept(g, scope, now))
    ensures RowsConsistent(Swept(g, scope, now))
  {
    var g' := Swept(g, scope, now);
    forall k | k in g'.sessions
      ensures RowConsistent(g', k)
    {
      SweptCellsHold(g, g', scope, now, k);
      SweptRow(g, g', scope, k);
    }
  }

  /** In scope nothing stays open; out of scope the sets of sessions are what they were. */
  lemma SweptSets(g: Gateway, g': Gateway, scope: Option<nat>, now: int, e: nat)
    requires Shaped(g) && g' == Swept(g, scope, now) && Shaped(g')
    ensures Open(g', e) == (if InScope(scope, e) then {} else Open(g, e))
    ensures Waiting(g', e) == (if InScope(scope, e) then {} else Waiting(g, e))
    ensures Begun(g', e) == Begun(g, e)
  {
    forall k: nat
      ensures k in Open(g', e) <==> !InScope(scope, e) && k in Open(g, e)
      ensures k in Begun(g', e) <==> k in Begun(g, e)
    {
      SweptMember(g, g', scope, now, k);
    }
    assert g'.starts.Keys == g.starts.Keys;
  }

  lemma SweptMember(g: Gateway, g': Gateway, scope: Option<nat>, now: int, k: nat)
    requires Shaped(g) && g' == Swept(g, scope, now)
    ensures (k in g'.sessions <==> k in g.sessions) && (k in g'.starts <==> k in g.starts)
    ensures k in g.sessions ==>
      && k in g'.reservations
      && g'.reservations[k].engagement == g.reservations[k].engagement
      && g'.reservations[k].grant == g.reservations[k].grant
      && (g'.sessions[k].status == Prepared <==> g.sessions[k].status == Prepared && !InScope(scope, g.reservations[k].engagement))
  {
  }

  lemma SweptLedger(g: Gateway, g': Gateway, scope: Option<nat>, now: int)
    requires Shaped(g) && LedgerBalanced(g)
    requires g' == Swept(g, scope, now) && Shaped(g')
    ensures LedgerBalanced(g')
  {
    forall e | e in g'.accounts
      ensures Balanced(g', e)
    {
      assert Balanced(g, e);
      SweptSets(g, g', scope, now, e);
    }
    forall k | k in g'.sessions
      ensures Accounted(g', k)
    {
      assert Accounted(g, k);
      SweptMember(g, g', scope, now, k);
    }
  }

  lemma SweptBounds(g: Gateway, scope: Option<nat>, now: int)
    requires Shaped(g) && BucketsBounded(g)
    ensures BucketsBounded(Swept(g, scope, now))
  {
    var refundable := Refundable(g, scope);
    var g' := Swept(g, scope, now);
    forall id | id in g'.buckets
      ensures BucketBounded(g'.buckets[id])
    {
      assert BucketBounded(g.buckets[id]);
      RefundBounded(g.buckets[id], |RefundsInto(g, refundable, id)|, now);
    }
  }

  lemma SweptBacking(g: Gateway, g': Gateway, scope: Option<nat>, now: int, k: nat)
    requires Shaped(g) && k in g.rates && Backed(g, k) && g' == Swept(g, scope, now)
    ensures k in g'.rates && Backed(g', k)
  {
  }

  lemma SweptHolds(g: Gateway, g': Gateway, scope: Option<nat>, now: int)
    requires Shaped(g) && HoldsBacked(g) && g' == Swept(g, scope, now) && g'.rates.Keys == g.rates.Keys
    ensures HoldsBacked(g')
  {
    forall k | k in g'.rates
      ensures Backed(g', k)
    {
      assert Backed(g, k);
      SweptBacking(g, g', scope, now, k);
    }
  }

  /** A sweep keeps the invariant and leaves nothing alive in its scope. */
  lemma SweepKeepsInvariant(g: Gateway, scope: Option<nat>, now: int)
    requires GatewayInv(g)
    ensures Sweep(g, scope, now) == Ok(Swept(g, scope, now))
    ensures GatewayInv(Swept(g, scope, now))
  {
    var g' := Swept(g, scope, now);
    SweepSucceeds(g, scope, now);
    SweptShape(g, scope, now);
    SweptRows(g, scope, now);
    SweptLedger(g, g', scope, now);
    SweptBounds(g, scope, now);
    assert g'.rates.Keys == g.rates.Keys;
    SweptHolds(g, g', scope, now);
    SweptUnique(g, g', scope, now);
  }

  lemma SweptUnique(g: Gateway, g': Gateway, scope: Option<nat>, now: int)
    requires Shaped(g) && OneReservationPerGrant(g) && g' == Swept(g, scope, now) && Shaped(g')
    ensures OneReservationPerGrant(g')
  {
    forall j, k | j in g'.reservations && k in g'.reservations
      ensures Apart(g', j, k)
    {
      SweptMember(g, g', scope, now, j);
      SweptMember(g, g', scope, now, k);
      assert Apart(g, j, k);
    }
  }

  // ---- One session at a time ----

  /** The row of session `j` is the same in every table. */
  ghost predicate SameRow(g: Gateway, g': Gateway, j: nat) {
    && (j in g.sessions <==> j in g'.sessions) && (j in g.sessions ==> g.sessions[j] == g'.sessions[j])
    && (j in g.rates <==> j in g'.rates) && (j in g.rates ==> g.rates[j] == g'.rates[j])
    && (j in g.reservations <==> j in g'.reservations) && (j in g.reservations ==> g.reservations[j] == g'.reservations[j])
    && (j in g.starts <==> j in g'.starts) && (j in g.starts ==> g.starts[j] == g'.starts[j])
    && (j in g.claims <==> j in g'.claims) && (j in g.claims ==> g.claims[j] == g'.claims[j])
    && (j in g.results <==> j in g'.results)
  }

  /** Only session `k` differs between the two states. */
  ghost predicate OnlyRow(g: Gateway, g': Gateway, k: nat) {
    forall j: nat :: j != k ==> SameRow(g, g', j)
  }

  lemma RowsKept(g: Gateway, g': Gateway, k: nat)
    requires Shaped(g) && RowsConsistent(g) && Shaped(g') && OnlyRow(g, g', k)
    requires k in g'.sessions ==> RowConsistent(g', k)
    ensures RowsConsistent(g')
  {
    forall j | j in g'.sessions
      ensures RowConsistent(g', j)
    {
      if j != k {
        assert SameRow(g, g', j);
        assert RowConsistent(g, j);
      }
    }
  }

  ghost function Bit(b: bool): int { if b then 1 else 0 }

  lemma CountShift(s: set<nat>, s': set<nat>, k: nat)
    requires s - {k} == s' - {k}
    ensures |s'| - |s| == Bit(k in s') - Bit(k in s)
  {
    assert |s - {k}| == |s| - Bit(k in s);
    assert |s' - {k}| == |s'| - Bit(k in s');
  }

  /** Sessions of an engagement counted by the account, before and after session `k` moves. */
  lemma SetsShift(g: Gateway, g': Gateway, k: nat, e: nat)
    requires Shaped(g) && Shaped(g') && OnlyRow(g, g', k)
    ensures |Open(g', e)| - |Open(g, e)| == Bit(k in Open(g', e)) - Bit(k in Open(g, e))
    ensures |Waiting(g', e)| - |Waiting(g, e)| == Bit(k in Waiting(g', e)) - Bit(k in Waiting(g, e))
    ensures |Begun(g', e)| - |Begun(g, e)| == Bit(k in Begun(g', e)) - Bit(k in Begun(g, e))
  {
    forall j: nat
      ensures j in Open(g, e) - {k} <==> j in Open(g', e) - {k}
      ensures j in Waiting(g, e) - {k} <==> j in Waiting(g', e) - {k}
      ensures j in Begun(g, e) - {k} <==> j in Begun(g', e) - {k}
    {
      if j != k { assert SameRow(g, g', j); }
    }
    CountShift(Open(g, e), Open(g', e), k);
    CountShift(Waiting(g, e), Waiting(g', e), k);
    CountShift(Begun(g, e), Begun(g', e), k);
  }

  /** The counters of an account, zero when the engagement has none yet. */
  ghost function Counters(g: Gateway, e: nat): (int, int, int) {
    if e in g.accounts then (g.accounts[e].reserved, g.accounts[e].active, g.accounts[e].committed) else (0, 0, 0)
  }

  /** The account of `k`'s engagement moves exactly as `k` enters and leaves the counted sets. */
  ghost predicate AccountFollows(g: Gateway, g': Gateway, k: nat, e: nat)
    requires Shaped(g) && Shaped(g')
  {
    && g'.accounts.Keys == g.accounts.Keys + {e}
    && (forall x :: x in g.accounts && x != e ==> g'.accounts[x] == g.accounts[x])
    && Counters(g', e).0 - Counters(g, e).0 == Bit(k in Waiting(g', e)) - Bit(k in Waiting(g, e))
    && Counters(g', e).1 - Counters(g, e).1 == Bit(k in Open(g', e)) - Bit(k in Open(g, e))
    && Counters(g', e).2 - Counters(g, e).2 == Bit(k in Begun(g', e)) - Bit(k in Begun(g, e))
    && g'.accounts[e].reserved + g'.accounts[e].committed <= g'.accounts[e].requestLimit
    && g'.accounts[e].active <= g'.accounts[e].connectionLimit
  }

  lemma BalanceKept(g: Gateway, g': Gateway, k: nat, e: nat)
    requires Shaped(g) && Shaped(g') && OnlyRow(g, g', k)
    requires LedgerBalanced(g) && AccountFollows(g, g', k, e)
    ensures Balanced(g', e)
  {
    SetsShift(g, g', k, e);
    if e in g.accounts { assert Balanced(g, e); }
    else {
      assert forall j :: j in g.sessions ==> Accounted(g, j);
      assert Open(g, e) == {};
      assert Waiting(g, e) == {};
      assert Begun(g, e) == {};
    }
  }

  lemma LedgerKept(g: Gateway, g': Gateway, k: nat, e: nat)
    requires Shaped(g) && Shaped(g') && OnlyRow(g, g', k)
    requires k in g'.sessions && g'.reservations[k].engagement == e
    requires k in g.sessions ==> g.reservations[k].engagement == e
    requires LedgerBalanced(g) && AccountFollows(g, g', k, e)
    ensures LedgerBalanced(g')
  {
    forall x | x in g'.accounts
      ensures Balanced(g', x)
    {
      if x == e { BalanceKept(g, g', k, e); }
      else {
        assert Balanced(g, x);
        SetsShift(g, g', k, x);
      }
    }
    forall j | j in g'.sessions
      ensures Accounted(g', j)
    {
      if j != k {
        assert SameRow(g, g', j);
        assert Accounted(g, j);
      }
    }
  }

  /** Row `k` may change its status columns, but neither its grant nor whether it is a backed hold. */
  lemma HoldsKept(g: Gateway, g': Gateway, k: nat)
    requires Shaped(g) && Shaped(g') && OnlyRow(g, g', k) && HoldsBacked(g) && g'.buckets == g.buckets
    requires k in g'.rates && g'.rates[k].status != Held
    ensures HoldsBacked(g')
  {
    forall j | j in g'.rates
      ensures Backed(g', j)
    {
      if j != k {
        assert SameRow(g, g', j);
        assert Backed(g, j);
      }
    }
  }

  lemma UniqueKept(g: Gateway, g': Gateway, k: nat)
    requires Shaped(g) && Shaped(g') && OnlyRow(g, g', k) && OneReservationPerGrant(g)
    requires k in g'.reservations
    requires if k in g.reservations then g'.reservations[k].grant == g.reservations[k].grant
             else forall j :: j in g.reservations ==> g.reservations[j].grant != g'.reservations[k].grant
    ensures OneReservationPerGrant(g')
  {
    forall i, j | i in g'.reservations && j in g'.reservations
      ensures Apart(g', i, j)
    {
      if i != k { assert SameRow(g, g', i); }
      if j != k { assert SameRow(g, g', j); }
      if i in g.reservations && j in g.reservations { assert Apart(g, i, j); }
    }
  }

  /** `k` keeps the engagement and grant of its reservation; a new row brings a grant without one. */
  ghost predicate SameIdentity(g: Gateway, g': Gateway, k: nat) {
    && k in g'.reservations
    && (if k in g.reservations
        then g'.reservations[k].grant == g.reservations[k].grant && g'.reservations[k].engagement == g.reservations[k].engagement
        else forall j :: j in g.reservations ==> g.reservations[j].grant != g'.reservations[k].grant)
  }

  /** A change to one session that respects the columns, the account and the buckets keeps the invariant. */
  ghost predicate SoundChange(g: Gateway, g': Gateway, k: nat)
    requires Shaped(g)
  {
    && Shaped(g') && OnlyRow(g, g', k) && SameIdentity(g, g', k) && RowConsistent(g', k)
    && AccountFollows(g, g', k, g'.reservations[k].engagement)
  }

  lemma SoundChangeKeeps(g: Gateway, g': Gateway, k: nat)
    requires GatewayInv(g) && SoundChange(g, g', k) && BucketsBounded(g') && HoldsBacked(g')
    ensures GatewayInv(g')
  {
    assert RowsConsistent(g') by { RowsKept(g, g', k); }
    assert LedgerBalanced(g') by { LedgerKept(g, g', k, g'.reservations[k].engagement); }
    assert OneReservationPerGrant(g') by { UniqueKept(g, g', k); }
  }

  lemma ReserveBounded(buckets: map<BucketId, Bucket>, id: BucketId, policy: nat, rate: real, capacity: int, now: int)
    requires rate > 0.0
    requires forall i :: i in buckets ==> BucketBounded(buckets[i])
    requires ReserveBucket(buckets, id, policy, rate, capacity, now).Ok?
    ensures var after := ReserveBucket(buckets, id, policy, rate, capacity, now).value;
      && after.Keys == buckets.Keys + {id}
      && (forall i :: i in after ==> BucketBounded(after[i]))
      && (forall i :: i in buckets && i != id ==> after[i] == buckets[i])
      && after[id].policy == policy
  {
  }

  lemma TokensTaken(before: map<BucketId, Bucket>, after: map<BucketId, Bucket>, e: nat, p: nat, host: string, b: Budgets, now: int)
    requires UsableBudgets(b)
    requires TakeTokens(before, e, p, host, b, now) == Ok(after)
    requires forall i :: i in before ==> BucketBounded(before[i])
    ensures forall i :: i in after ==> BucketBounded(after[i])
    ensures BucketId(e, AllHosts) in after && after[BucketId(e, AllHosts)].policy == p
    ensures BucketId(e, Host(host)) in after && after[BucketId(e, Host(host))].policy == p
    ensures forall i :: i in before ==> i in after && (after[i] == before[i] || (i.engagement == e && after[i].policy == p))
  {
    var mid := ReserveBucket(before, BucketId(e, AllHosts), p, b.globalRate, b.burst, now).value;
    ReserveBounded(before, BucketId(e, AllHosts), p, b.globalRate, b.burst, now);
    ReserveBounded(mid, BucketId(e, Host(host)), p, b.hostRate, b.burst, now);
  }

  /** Live sessions of an engagement were prepared under policy `p`. */
  ghost predicate OpenUnder(g: Gateway, e: nat, p: nat)
    requires Shaped(g)
  {
    forall j :: j in Open(g, e) ==> g.reservations[j].policy == p
  }

  /** Holds stay backed when tokens are taken under the policy the live sessions share. */
  lemma HoldsStayBacked(g: Gateway, buckets: map<BucketId, Bucket>, e: nat, p: nat, k: nat)
    requires Shaped(g) && RowsConsistent(g) && HoldsBacked(g) && OpenUnder(g, e, p)
    requires forall i :: i in g.buckets ==> i in buckets && (buckets[i] == g.buckets[i] || (i.engagement == e && buckets[i].policy == p))
    ensures forall j :: j in g.rates && g.rates[j].status == Held ==> BucketsMatch(buckets, g.rates[j])
  {
    forall j | j in g.rates && g.rates[j].status == Held
      ensures BucketsMatch(buckets, g.rates[j])
    {
      assert RowConsistent(g, j);
      assert Backed(g, j);
      assert g.rates[j].engagement == e ==> j in Open(g, e);
    }
  }

  /** The gateway tables after a successful preparation. */
  ghost predicate PreparedTables(g: Gateway, g': Gateway, k: nat, grantId: nat, e: nat, p: nat, host: string, b: Budgets, now: int,
                               limit: int, attestation: nat) {
    && k !in g.sessions
    && TakeTokens(g.buckets, e, p, host, b, now) == Ok(g'.buckets)
    && g'.reservations == g.reservations[k := Reservation(e, p, grantId, limit, Held)]
    && g'.sessions == g.sessions[k := Session(attestation, Prepared)]
    && g'.rates == g.rates[k := RateHold(e, p, host, Held)]
    && g'.starts == g.starts && g'.claims == g.claims && g'.results == g.results
    && var acc := Upserted(g, e, p, b);
       && acc.reserved + acc.committed + 1 <= acc.requestLimit && acc.active + 1 <= acc.connectionLimit
       && g'.accounts == g.accounts[e := acc.(reserved := acc.reserved + 1, active := acc.active + 1)]
  }

  lemma PreparedShape(g: Gateway, g': Gateway, k: nat, grantId: nat, e: nat, p: nat, host: string, b: Budgets, now: int,
                    limit: int, attestation: nat)
    requires Shaped(g) && PreparedTables(g, g', k, grantId, e, p, host, b, now, limit, attestation)
    requires forall j :: j in g.reservations ==> g.reservations[j].grant != grantId
    ensures Shaped(g') && OnlyRow(g, g', k) && SameIdentity(g, g', k)
  {
  }

  lemma PreparedFollows(g: Gateway, g': Gateway, k: nat, grantId: nat, e: nat, p: nat, host: string, b: Budgets, now: int,
                    limit: int, attestation: nat)
    requires Shaped(g) && Shaped(g') && PreparedTables(g, g', k, grantId, e, p, host, b, now, limit, attestation)
    ensures AccountFollows(g, g', k, g'.reservations[k].engagement)
  {
    assert k in Open(g', e) && k in Waiting(g', e) && k !in Begun(g', e);
    assert k !in Open(g, e) && k !in Waiting(g, e) && k !in Begun(g, e);
  }

  lemma PreparedRow(g: Gateway, g': Gateway, k: nat, grantId: nat, e: nat, p: nat, host: string, b: Budgets, now: int,
                    limit: int, attestation: nat)
    requires Shaped(g) && PreparedTables(g, g', k, grantId, e, p, host, b, now, limit, attestation)
    requires forall j :: j in g.reservations ==> g.reservations[j].grant != grantId
    ensures SoundChange(g, g', k)
  {
    PreparedShape(g, g', k, grantId, e, p, host, b, now, limit, attestation);
    PreparedFollows(g, g', k, grantId, e, p, host, b, now, limit, attestation);
  }

  /** Preparing keeps the invariant as long as the engagement's other live sessions share the policy. */
  lemma PrepareKeeps(g: Gateway, g': Gateway, k: nat, grantId: nat, e: nat, p: nat, host: string, b: Budgets, now: int,
                     limit: int, attestation: nat)
    requires GatewayInv(g) && UsableBudgets(b) && OpenUnder(g, e, p)
    requires forall j :: j in g.reservations ==> g.reservations[j].grant != grantId
    requires PreparedTables(g, g', k, grantId, e, p, host, b, now, limit, attestation)
    ensures GatewayInv(g')
  {
    PreparedRow(g, g', k, grantId, e, p, host, b, now, limit, attestation);
    TokensTaken(g.buckets, g'.buckets, e, p, host, b, now);
    assert HoldsBacked(g') by {
      HoldsStayBacked(g, g'.buckets, e, p, k);
      PreparedHolds(g, g', k);
    }
    SoundChangeKeeps(g, g', k);
  }

  lemma PreparedHolds(g: Gateway, g': Gateway, k: nat)
    requires OnlyRow(g, g', k)
    requires forall j :: j in g.rates && g.rates[j].status == Held ==> BucketsMatch(g'.buckets, g.rates[j])
    requires k in g'.rates && BucketsMatch(g'.buckets, g'.rates[k])
    ensures HoldsBacked(g')
  {
    forall j | j in g'.rates
      ensures Backed(g', j)
    {
      if j != k { assert SameRow(g, g', j); }
    }
  }

  /** The gateway tables after a request start. */
  ghost predicate StartedTables(g: Gateway, g': Gateway, k: nat, start: Start) {
    && k in g.sessions && k in g.reservations && k in g.rates && k !in g.starts && !start.cancelled
    && g.sessions[k].status == Prepared
    && g'.sessions == g.sessions && g'.claims == g.claims && g'.results == g.results && g'.buckets == g.buckets
    && g'.starts == g.starts[k := start]
    && g'.reservations == g.reservations[k := g.reservations[k].(status := Spent)]
    && g'.rates == g.rates[k := g.rates[k].(status := Spent)]
    && var e := g.reservations[k].engagement;
       && e in g.accounts
       && g'.accounts == g.accounts[e := g.accounts[e].(reserved := g.accounts[e].reserved - 1, committed := g.accounts[e].committed + 1)]
  }

  lemma StartedShape(g: Gateway, g': Gateway, k: nat, start: Start)
    requires Shaped(g) && StartedTables(g, g', k, start)
    ensures Shaped(g') && OnlyRow(g, g', k) && SameIdentity(g, g', k)
  {
  }

  lemma StartedFollows(g: Gateway, g': Gateway, k: nat, start: Start)
    requires Shaped(g) && Shaped(g') && StartedTables(g, g', k, start)
    requires Balanced(g, g.reservations[k].engagement)
    ensures AccountFollows(g, g', k, g'.reservations[k].engagement)
  {
    var e := g.reservations[k].engagement;
    assert k in Open(g, e) && k in Open(g', e) && k in Waiting(g, e) && k !in Waiting(g', e) && k !in Begun(g, e) && k in Begun(g', e);
  }

  lemma StartedRow(g: Gateway, g': Gateway, k: nat, start: Start)
    requires Shaped(g) && StartedTables(g, g', k, start) && RowConsistent(g, k) && Balanced(g, g.reservations[k].engagement)
    ensures SoundChange(g, g', k)
  {
    StartedShape(g, g', k, start);
    StartedFollows(g, g', k, start);
  }

  lemma StartKeeps(g: Gateway, g': Gateway, k: nat, start: Start)
    requires GatewayInv(g) && StartedTables(g, g', k, start)
    ensures GatewayInv(g')
  {
    StartedRow(g, g', k, start);
    HoldsKept(g, g', k);
    SoundChangeKeeps(g, g', k);
  }

  /** The gateway tables after a request has been finalized. */
  ghost predicate ClosedTables(g: Gateway, g': Gateway, k: nat, m: Measurement) {
    && k in g.sessions && k in g.reservations && k in g.starts && k !in g.results
    && g.sessions[k].status == Prepared
    && g'.reservations == g.reservations && g'.rates == g.rates && g'.starts == g.starts && g'.buckets == g.buckets
    && g'.sessions == g.sessions[k := g.sessions[k].(status := Closed)]
    && g'.results == g.results[k := m]
    && g'.claims == (if k in g.claims then g.claims[k := g.claims[k].(status := ClaimCompleted)] else g.claims)
    && var e := g.reservations[k].engagement;
       e in g.accounts && g'.accounts == g.accounts[e := g.accounts[e].(active := g.accounts[e].active - 1)]
  }

  lemma ClosedShape(g: Gateway, g': Gateway, k: nat, m: Measurement)
    requires Shaped(g) && ClosedTables(g, g', k, m)
    ensures Shaped(g') && OnlyRow(g, g', k) && SameIdentity(g, g', k)
  {
  }

  lemma ClosedFollows(g: Gateway, g': Gateway, k: nat, m: Measurement)
    requires Shaped(g) && Shaped(g') && ClosedTables(g, g', k, m)
    requires Balanced(g, g.reservations[k].engagement)
    ensures AccountFollows(g, g', k, g'.reservations[k].engagement)
  {
    var e := g.reservations[k].engagement;
    assert k in Open(g, e) && k !in Open(g', e) && k !in Waiting(g, e) && k !in Waiting(g', e) && k in Begun(g, e) && k in Begun(g', e);
  }

  lemma ClosedRow(g: Gateway, g': Gateway, k: nat, m: Measurement)
    requires Shaped(g) && ClosedTables(g, g', k, m) && RowConsistent(g, k) && Balanced(g, g.reservations[k].engagement)
    ensures SoundChange(g, g', k)
  {
    ClosedShape(g, g', k, m);
    ClosedFollows(g, g', k, m);
  }

  lemma CloseKeeps(g: Gateway, g': Gateway, k: nat, m: Measurement)
    requires GatewayInv(g) && ClosedTables(g, g', k, m)
    ensures GatewayInv(g')
  {
    assert RowConsistent(g, k) && Accounted(g, k);
    ClosedRow(g, g', k, m);
    HoldsKept(g, g', k);
    SoundChangeKeeps(g, g', k);
  }

  lemma ClaimedRow(g: Gateway, g': Gateway, k: nat, claim: Claim)
    requires Shaped(g) && k in g.starts && g.sessions[k].status == Prepared && claim.status == Claimed
    requires RowConsistent(g, k) && g.reservations[k].engagement in g.accounts && Balanced(g, g.reservations[k].engagement)
    requires g' == g.(claims := g.claims[k := claim])
    ensures SoundChange(g, g', k)
  {
  }

  lemma ClaimKeeps(g: Gateway, g': Gateway, k: nat, claim: Claim)
    requires GatewayInv(g) && k in g.starts && g.sessions[k].status == Prepared && claim.status == Claimed
    requires g' == g.(claims := g.claims[k := claim])
    ensures GatewayInv(g')
  {
    assert RowConsistent(g, k) && Accounted(g, k);
    ClaimedRow(g, g', k, claim);
    HoldsKept(g, g', k);
    SoundChangeKeeps(g, g', k);
  }

  /** The gateway tables after one waiting session has been aborted. */
  ghost predicate AbortedTables(g: Gateway, g': Gateway, k: nat, now: int) {
    && k in g.sessions && k in g.reservations && k in g.rates && k !in g.starts && g.sessions[k].status == Prepared
    && g'.starts == g.starts && g'.claims == g.claims && g'.results == g.results
    && g'.sessions == g.sessions[k := g.sessions[k].(status := Aborted)]
    && g'.reservations == g.reservations[k := g.reservations[k].(status := Released)]
    && g'.rates == g.rates[k := g.rates[k].(status := Released)]
    && g'.buckets == ReleaseOne(g.buckets, g.rates[k], now)
    && var e := g.reservations[k].engagement;
       && e in g.accounts
       && g'.accounts == g.accounts[e := g.accounts[e].(reserved := g.accounts[e].reserved - 1, active := g.accounts[e].active - 1)]
  }

  lemma ReleaseBounded(g: Gateway, hold: RateHold, now: int)
    requires BucketsBounded(g) && HoldsBacked(g)
    ensures var buckets := ReleaseOne(g.buckets, hold, now);
      && (forall id :: id in buckets ==> BucketBounded(buckets[id]))
      && (forall k :: k in g.rates && g.rates[k].status == Held ==> BucketsMatch(buckets, g.rates[k]))
  {
    var buckets := ReleaseOne(g.buckets, hold, now);
    forall id | id in buckets
      ensures BucketBounded(buckets[id])
    {
      assert BucketBounded(g.buckets[id]);
      RefundBounded(g.buckets[id], if Touches(hold, id) then 1 else 0, now);
    }
    forall k | k in g.rates && g.rates[k].status == Held
      ensures BucketsMatch(buckets, g.rates[k])
    {
      assert Backed(g, k);
    }
  }

  lemma AbortedShape(g: Gateway, g': Gateway, k: nat, now: int)
    requires Shaped(g) && AbortedTables(g, g', k, now)
    ensures Shaped(g') && OnlyRow(g, g', k) && SameIdentity(g, g', k)
  {
  }

  lemma AbortedFollows(g: Gateway, g': Gateway, k: nat, now: int)
    requires Shaped(g) && Shaped(g') && AbortedTables(g, g', k, now)
    requires Balanced(g, g.reservations[k].engagement)
    ensures AccountFollows(g, g', k, g'.reservations[k].engagement)
  {
    var e := g.reservations[k].engagement;
    assert k in Open(g, e) && k !in Open(g', e) && k in Waiting(g, e) && k !in Waiting(g', e) && k !in Begun(g, e) && k !in Begun(g', e);
  }

  lemma AbortedRow(g: Gateway, g': Gateway, k: nat, now: int)
    requires Shaped(g) && AbortedTables(g, g', k, now) && RowConsistent(g, k) && Balanced(g, g.reservations[k].engagement)
    ensures SoundChange(g, g', k)
  {
    AbortedShape(g, g', k, now);
    AbortedFollows(g, g', k, now);
  }

  lemma AbortedHolds(g: Gateway, g': Gateway, k: nat, now: int)
    requires AbortedTables(g, g', k, now)
    requires forall j :: j in g.rates && g.rates[j].status == Held ==> BucketsMatch(g'.buckets, g.rates[j])
    ensures HoldsBacked(g')
  {
  }

  lemma AbortKeeps(g: Gateway, g': Gateway, k: nat, now: int)
    requires GatewayInv(g) && AbortedTables(g, g', k, now)
    ensures GatewayInv(g')
  {
    AbortedRow(g, g', k, now);
    assert BucketsBounded(g') && HoldsBacked(g') by {
      ReleaseBounded(g, g.rates[k], now);
      AbortedHolds(g, g', k, now);
    }
    SoundChangeKeeps(g, g', k);
  }

  /** A live session is always counted, so the guards against inconsistent accounting never fire. */
  lemma LiveSessionCounted(g: Gateway, k: nat)
    requires GatewayInv(g) && k in g.sessions && g.sessions[k].status == Prepared
    ensures var e := g.reservations[k].engagement;
      && e in g.accounts && g.accounts[e].active >= 1
      && (k !in g.starts ==> g.accounts[e].reserved >= 1 && g.rates[k].status == Held && BucketsMatch(g.buckets, g.rates[k]))
  {
    assert RowConsistent(g, k) && Accounted(g, k) && Backed(g, k);
    var e := g.reservations[k].engagement;
    assert Balanced(g, e);
    assert k in Open(g, e);
    assert k !in g.starts ==> k in Waiting(g, e);
  }
}
