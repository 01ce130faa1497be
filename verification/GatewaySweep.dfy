/**
 * The abort sweep as the service runs it: three passes of table updates, two of which loop over
 * grouped rows, refined to the closed form the invariants are stated about.
 */
module GatewaySweep {
  import opened Common
  import opened AuthorityModel
  import opened GatewayInvariant
  import opened TokenLevels
  import opened ResponseAccounting

  /** A start still belonging to a prepared session is labelled committed. */
  predicate StartsLabelled(g: Gateway)
    requires Shaped(g)
  {
    forall k :: k in g.starts && g.sessions[k].status == Prepared ==> !g.starts[k].cancelled
  }

  /** The CHECK constraints on the account counters. */
  predicate CountersChecked(g: Gateway) {
    forall e :: e in g.accounts ==> g.accounts[e].reserved >= 0 && g.accounts[e].active >= 0
  }

  /** Prepared sessions of an engagement whose request has started. */
  function Running(g: Gateway, e: nat): set<nat>
    requires Shaped(g)
  {
    set k | k in Open(g, e) && k in g.starts
  }

  /** Starts labelled committed, whatever became of their sessions. */
  function Committed(g: Gateway, scope: Option<nat>): set<nat>
    requires Shaped(g)
  {
    set k | k in g.starts && !g.starts[k].cancelled && InScope(scope, g.reservations[k].engagement)
  }

  /** Prepared sessions in scope without a start. */
  function Idle(g: Gateway, scope: Option<nat>): set<nat>
    requires Shaped(g)
  {
    set k | k in g.sessions && g.sessions[k].status == Prepared && k !in g.starts && InScope(scope, g.reservations[k].engagement)
  }

  function EngagementsOf(g: Gateway, keys: set<nat>): set<nat>
    requires Shaped(g) && keys <= g.sessions.Keys
  {
    set k | k in keys :: g.reservations[k].engagement
  }

  lemma OpenSplits(g: Gateway, e: nat)
    requires Shaped(g)
    ensures |Open(g, e)| == |Running(g, e)| + |Waiting(g, e)|
  {
    assert Open(g, e) == Running(g, e) + Waiting(g, e);
    assert Running(g, e) !! Waiting(g, e);
  }

  // ---- First pass: claims and started sessions ----

  function WithoutRunning(g: Gateway, scope: Option<nat>): map<nat, Account>
    requires Shaped(g)
  {
    map e | e in g.accounts ::
      if InScope(scope, e) then g.accounts[e].(active := g.accounts[e].active - |Running(g, e)|) else g.accounts[e]
  }

  function ClaimsAbandoned(g: Gateway, scope: Option<nat>): map<nat, Claim>
    requires Shaped(g)
  {
    map k | k in g.claims ::
      if g.claims[k].status == Claimed && InScope(scope, g.reservations[k].engagement)
      then g.claims[k].(status := Abandoned) else g.claims[k]
  }

  function StartsCancelled(g: Gateway, scope: Option<nat>): map<nat, Start>
    requires Shaped(g)
  {
    map k | k in g.starts ::
      if InScope(scope, g.reservations[k].engagement) then g.starts[k].(cancelled := true) else g.starts[k]
  }

  function RunningAborted(g: Gateway, scope: Option<nat>): map<nat, Session>
    requires Shaped(g)
  {
    map k | k in g.sessions ::
      if g.sessions[k].status == Prepared && k in g.starts && InScope(scope, g.reservations[k].engagement)
      then g.sessions[k].(status := Aborted) else g.sessions[k]
  }

  function FirstPass(g: Gateway, scope: Option<nat>): Gateway
    requires Shaped(g)
  {
    g.(accounts := WithoutRunning(g, scope), claims := ClaimsAbandoned(g, scope),
       starts := StartsCancelled(g, scope), sessions := RunningAborted(g, scope))
  }

  /** Rows counted per engagement. */
  function Grouped(g: Gateway, rows: set<nat>): map<nat, nat>
    requires Shaped(g) && rows <= g.sessions.Keys
  {
    map e | e in EngagementsOf(g, rows) :: |GroupOf(g, rows, e)|
  }

  function GroupOf(g: Gateway, rows: set<nat>, e: nat): set<nat>
    requires Shaped(g) && rows <= g.sessions.Keys
  {
    set k | k in rows && g.reservations[k].engagement == e
  }

  /** The account less a group's amount; a start has already given its reserved request up. */
  function Less(acc: Account, amount: nat, waiting: bool): Account {
    acc.(reserved := acc.reserved - (if waiting then amount else 0), active := acc.active - amount)
  }

  predicate Underflows(accounts: map<nat, Account>, groups: map<nat, nat>, waiting: bool, e: nat) {
    e in accounts && e in groups && (Less(accounts[e], groups[e], waiting).reserved < 0 || Less(accounts[e], groups[e], waiting).active < 0)
  }

  /** Subtracts each group from its account; the CHECK constraints refuse a negative counter. */
  method SubtractGroups(accounts: map<nat, Account>, groups: map<nat, nat>, waiting: bool) returns (r: Result<map<nat, Account>, Code>)
    ensures r.Err? <==> exists e :: Underflows(accounts, groups, waiting, e)
    ensures r.Err? ==> r.error == IntegrityFailure
    ensures r.Ok? ==> r.value == map e | e in accounts :: if e in groups then Less(accounts[e], groups[e], waiting) else accounts[e]
  {
    var left, todo := accounts, groups.Keys;
    while todo != {}
      invariant todo <= groups.Keys && left.Keys == accounts.Keys
      invariant forall e :: e in groups && e !in todo ==> !Underflows(accounts, groups, waiting, e)
      invariant forall e :: e in accounts ==>
        (left[e] == if e in groups && e !in todo then Less(accounts[e], groups[e], waiting) else accounts[e])
      decreases todo
    {
      var e :| e in todo;
      if e in left {
        var acc := Less(left[e], groups[e], waiting);
        if acc.reserved < 0 || acc.active < 0 {
          assert Underflows(accounts, groups, waiting, e);
          return Err(IntegrityFailure);
        }
        left := left[e := acc];
      }
      todo := todo - {e};
    }
    return Ok(left);
  }

  lemma RunningGroups(g: Gateway, scope: Option<nat>, rows: set<nat>, e: nat)
    requires Shaped(g) && StartsLabelled(g)
    requires rows == set k | k in Committed(g, scope) && g.sessions[k].status == Prepared
    ensures e in Grouped(g, rows) <==> InScope(scope, e) && Running(g, e) != {}
    ensures e in Grouped(g, rows) ==> GroupOf(g, rows, e) == Running(g, e)
  {
    if InScope(scope, e) && Running(g, e) != {} {
      var k :| k in Running(g, e);
      assert k in rows;
    }
    if e in EngagementsOf(g, rows) {
      var k :| k in rows && g.reservations[k].engagement == e;
      assert k in Running(g, e);
    }
  }

  lemma RunningAccount(g: Gateway, scope: Option<nat>, rows: set<nat>, e: nat)
    requires Shaped(g) && StartsLabelled(g) && e in g.accounts && g.accounts[e].reserved >= 0 && g.accounts[e].active >= 0
    requires rows == set k | k in Committed(g, scope) && g.sessions[k].status == Prepared
    ensures Underflows(g.accounts, Grouped(g, rows), false, e) <==> InScope(scope, e) && g.accounts[e].active < |Running(g, e)|
    ensures WithoutRunning(g, scope)[e] == if e in Grouped(g, rows) then Less(g.accounts[e], Grouped(g, rows)[e], false) else g.accounts[e]
  {
    RunningGroups(g, scope, rows, e);
  }

  method SubtractRunning(g: Gateway, scope: Option<nat>) returns (r: Result<map<nat, Account>, Code>)
    requires Shaped(g) && StartsLabelled(g) && CountersChecked(g)
    ensures r.Err? <==> FirstFails(g, scope)
    ensures r.Ok? ==> r.value == WithoutRunning(g, scope)
    ensures r.Err? ==> r.error == IntegrityFailure
  {
    var rows := set k | k in Committed(g, scope) && g.sessions[k].status == Prepared;
    var groups := Grouped(g, rows);
    RunningAccounts(g, scope, rows);
    r := SubtractGroups(g.accounts, groups, false);
  }

  lemma RunningAccounts(g: Gateway, scope: Option<nat>, rows: set<nat>)
    requires Shaped(g) && StartsLabelled(g) && CountersChecked(g)
    requires rows == set k | k in Committed(g, scope) && g.sessions[k].status == Prepared
    ensures var groups := Grouped(g, rows);
      && ((exists e :: Underflows(g.accounts, groups, false, e)) <==> FirstFails(g, scope))
      && WithoutRunning(g, scope) == map e | e in g.accounts :: if e in groups then Less(g.accounts[e], groups[e], false) else g.accounts[e]
  {
    var groups := Grouped(g, rows);
    forall e | e in g.accounts
      ensures Underflows(g.accounts, groups, false, e) <==> InScope(scope, e) && g.accounts[e].active < |Running(g, e)|
      ensures WithoutRunning(g, scope)[e] == if e in groups then Less(g.accounts[e], groups[e], false) else g.accounts[e]
    {
      RunningAccount(g, scope, rows, e);
    }
  }

  method CancelStarts(g: Gateway, scope: Option<nat>) returns (r: Result<Gateway, Code>, cancelled: nat)
    requires Shaped(g) && StartsLabelled(g) && CountersChecked(g)
    ensures r.Err? <==> FirstFails(g, scope)
    ensures r.Ok? ==> r.value == FirstPass(g, scope)
    ensures r.Err? ==> r.error == IntegrityFailure
    ensures cancelled == |Committed(g, scope)|
  {
    cancelled := |Committed(g, scope)|;
    var claims := ClaimsAbandoned(g, scope);
    var accounts := SubtractRunning(g, scope);
    if accounts.Err? { r := Err(accounts.error); return; }
    var starts := map k | k in g.starts :: if k in Committed(g, scope) then g.starts[k].(cancelled := true) else g.starts[k];
    var sessions := map k | k in g.sessions ::
      if g.sessions[k].status == Prepared && k in starts && starts[k].cancelled && InScope(scope, g.reservations[k].engagement)
      then g.sessions[k].(status := Aborted) else g.sessions[k];
    CancelledTables(g, scope, starts, sessions);
    r := Ok(g.(accounts := accounts.value, claims := claims, starts := starts, sessions := sessions));
  }

  lemma CancelledTables(g: Gateway, scope: Option<nat>, starts: map<nat, Start>, sessions: map<nat, Session>)
    requires Shaped(g)
    requires starts == map k | k in g.starts :: if k in Committed(g, scope) then g.starts[k].(cancelled := true) else g.starts[k]
    requires sessions == map k | k in g.sessions ::
      if g.sessions[k].status == Prepared && k in starts && starts[k].cancelled && InScope(scope, g.reservations[k].engagement)
      then g.sessions[k].(status := Aborted) else g.sessions[k]
    ensures starts == StartsCancelled(g, scope) && sessions == RunningAborted(g, scope)
  {
  }

  // ---- Second pass: rate tokens ----

  function RefundAt(buckets: map<BucketId, Bucket>, id: BucketId, now: int): map<BucketId, Bucket> {
    if id in buckets then buckets[id := Refund(buckets[id], 1, now)] else buckets
  }

  lemma RefundTwice(buckets: map<BucketId, Bucket>, hold: RateHold, now: int)
    requires BucketsMatch(buckets, hold)
    ensures RefundAt(RefundAt(buckets, BucketId(hold.engagement, AllHosts), now), BucketId(hold.engagement, Host(hold.host)), now)
      == ReleaseOne(buckets, hold, now)
  {
  }

  /** The bucket of the engagement, or the one of the host. */
  ghost predicate IsBucketOf(id: BucketId, e: nat, host: string) { id == BucketId(e, AllHosts) || id == BucketId(e, Host(host)) }

  lemma ReleaseRestores(buckets: map<BucketId, Bucket>, hold: RateHold, now: int)
    ensures forall id :: id in buckets && BucketBounded(buckets[id]) ==>
      Restored(buckets[id], ReleaseOne(buckets, hold, now)[id], if IsBucketOf(id, hold.engagement, hold.host) then 1 else 0, now)
  {
    forall id | id in buckets && BucketBounded(buckets[id])
      ensures Restored(buckets[id], ReleaseOne(buckets, hold, now)[id], if IsBucketOf(id, hold.engagement, hold.host) then 1 else 0, now)
    {
      RefundMeaning(buckets[id], if IsBucketOf(id, hold.engagement, hold.host) then 1 else 0, now);
    }
  }

  /** A single release: both buckets are checked and refunded in turn. */
  method ReleaseRateReservation(g: Gateway, k: nat, now: int) returns (r: Result<Gateway, Code>)
    requires k in g.rates
    ensures r.Err? <==> g.rates[k].status == Held && !BucketsMatch(g.buckets, g.rates[k])
    ensures r.Err? ==> r.error == RateStateInvalid
    ensures r.Ok? ==> r.value == if g.rates[k].status != Held then g
      else g.(buckets := ReleaseOne(g.buckets, g.rates[k], now), rates := g.rates[k := g.rates[k].(status := Released)])
    ensures r.Ok? && g.rates[k].status == Held ==> forall id :: id in g.buckets && BucketBounded(g.buckets[id]) ==>
      Restored(g.buckets[id], r.value.buckets[id], if IsBucketOf(id, g.rates[k].engagement, g.rates[k].host) then 1 else 0, now)
  {
    ReleaseRestores(g.buckets, g.rates[k], now);
    var hold := g.rates[k];
    if hold.status != Held { return Ok(g); }
    var buckets, keys := g.buckets, [AllHosts, Host(hold.host)];
    for i := 0 to |keys|
      invariant forall j :: 0 <= j < i ==> BucketMatches(g.buckets, hold, keys[j])
      invariant i == 0 ==> buckets == g.buckets
      invariant i == 1 ==> buckets == RefundAt(g.buckets, BucketId(hold.engagement, AllHosts), now)
      invariant i == 2 ==> buckets == RefundAt(RefundAt(g.buckets, BucketId(hold.engagement, AllHosts), now), BucketId(hold.engagement, Host(hold.host)), now)
    {
      var id := BucketId(hold.engagement, keys[i]);
      if id !in buckets || buckets[id].policy != hold.policy {
        assert !BucketMatches(g.buckets, hold, keys[i]);
        return Err(RateStateInvalid);
      }
      var b := buckets[id];
      var at := Max(now, b.updatedAt);
      buckets := buckets[id := b.(tokens := MinReal(b.capacity as real, b.tokens + Refill(at - b.updatedAt, b.rate) + 1.0), updatedAt := at)];
      assert buckets[id] == Refund(b, 1, now);
    }
    assert BucketMatches(g.buckets, hold, keys[0]) && BucketMatches(g.buckets, hold, keys[1]);
    RefundTwice(g.buckets, hold, now);
    return Ok(g.(buckets := buckets, rates := g.rates[k := hold.(status := Released)]));
  }

  function HeldOf(g: Gateway, keys: set<nat>): set<nat> {
    set k | k in keys && k in g.rates && g.rates[k].status == Held
  }

  function HoldsReleased(g: Gateway, keys: set<nat>): map<nat, RateHold> {
    map k | k in g.rates :: if k in HeldOf(g, keys) then g.rates[k].(status := Released) else g.rates[k]
  }

  /** Tokens handed back one at a time add up. */
  lemma RefundMore(b: Bucket, n: nat, m: nat, now: int)
    requires m <= 1
    ensures Refund(Refund(b, n, now), m, now) == Refund(b, n + m, now)
  {
  }

  lemma RefundCount(g: Gateway, keys: set<nat>, k: nat, id: BucketId)
    requires Shaped(g) && keys <= g.sessions.Keys && k in g.sessions && k !in keys
    ensures |RefundsInto(g, keys + {k}, id)| == |RefundsInto(g, keys, id)| + if Touches(g.rates[k], id) then 1 else 0
  {
    assert RefundsInto(g, keys + {k}, id) == RefundsInto(g, keys, id) + if Touches(g.rates[k], id) then {k} else {};
  }

  lemma RefundGrowsAt(g: Gateway, keys: set<nat>, k: nat, now: int, id: BucketId)
    requires Shaped(g) && keys <= g.sessions.Keys && k in g.sessions && k !in keys && id in g.buckets
    ensures RefundBuckets(g, keys + {k}, now)[id] == Refund(RefundBuckets(g, keys, now)[id], if Touches(g.rates[k], id) then 1 else 0, now)
  {
    RefundCount(g, keys, k, id);
    RefundMore(g.buckets[id], |RefundsInto(g, keys, id)|, if Touches(g.rates[k], id) then 1 else 0, now);
  }

  lemma RefundGrows(g: Gateway, keys: set<nat>, k: nat, now: int)
    requires Shaped(g) && keys <= g.sessions.Keys && k in g.sessions && k !in keys
    ensures RefundBuckets(g, keys + {k}, now) == ReleaseOne(RefundBuckets(g, keys, now), g.rates[k], now)
  {
    forall id | id in g.buckets
      ensures RefundBuckets(g, keys + {k}, now)[id] == Refund(RefundBuckets(g, keys, now)[id], if Touches(g.rates[k], id) then 1 else 0, now)
    {
      RefundGrowsAt(g, keys, k, now, id);
    }
  }

  lemma RefundNone(g: Gateway, now: int)
    requires Shaped(g)
    ensures RefundBuckets(g, {}, now) == g.buckets
  {
    assert forall id :: id in g.buckets ==> RefundsInto(g, {}, id) == {};
  }

  /** Refunds do not change which policy a bucket belongs to. */
  lemma RefundKeepsLabels(g: Gateway, keys: set<nat>, hold: RateHold, now: int)
    requires Shaped(g) && keys <= g.sessions.Keys
    ensures BucketsMatch(RefundBuckets(g, keys, now), hold) <==> BucketsMatch(g.buckets, hold)
  {
  }

  /** The holds among these that took a token of the bucket. */
  ghost function HoldsOn(g: Gateway, keys: set<nat>, id: BucketId): set<nat> {
    set k | k in keys && k in g.rates && IsBucketOf(id, g.rates[k].engagement, g.rates[k].host)
  }

  lemma HoldsRestore(g: Gateway, keys: set<nat>, now: int)
    requires Shaped(g) && keys <= g.sessions.Keys
    ensures forall id :: id in g.buckets && BucketBounded(g.buckets[id]) ==>
      Restored(g.buckets[id], RefundBuckets(g, keys, now)[id], |HoldsOn(g, keys, id)|, now)
  {
    forall id | id in g.buckets && BucketBounded(g.buckets[id])
      ensures Restored(g.buckets[id], RefundBuckets(g, keys, now)[id], |HoldsOn(g, keys, id)|, now)
    {
      assert RefundsInto(g, keys, id) == HoldsOn(g, keys, id);
      RefundMeaning(g.buckets[id], |HoldsOn(g, keys, id)|, now);
    }
  }

  method ReleaseHolds(g: Gateway, keys: set<nat>, now: int) returns (r: Result<Gateway, Code>)
    requires Shaped(g) && keys <= g.sessions.Keys
    ensures r.Err? <==> exists k :: k in HeldOf(g, keys) && !BucketsMatch(g.buckets, g.rates[k])
    ensures r.Err? ==> r.error == RateStateInvalid
    ensures r.Ok? ==> r.value == g.(buckets := RefundBuckets(g, HeldOf(g, keys), now), rates := HoldsReleased(g, keys))
    ensures r.Ok? ==> forall id :: id in g.buckets && BucketBounded(g.buckets[id]) ==>
      Restored(g.buckets[id], r.value.buckets[id], |HoldsOn(g, HeldOf(g, keys), id)|, now)
  {
    HoldsRestore(g, HeldOf(g, keys), now);
    var tx, todo := g, keys;
    ghost var done: set<nat> := {};
    RefundNone(g, now);
    assert HeldOf(g, done) == {};
    while todo != {}
      invariant done + todo == keys && done !! todo
      invariant tx == g.(buckets := RefundBuckets(g, HeldOf(g, done), now), rates := HoldsReleased(g, done))
      invariant forall k :: k in HeldOf(g, done) ==> BucketsMatch(g.buckets, g.rates[k])
      decreases todo
    {
      var k :| k in todo;
      assert tx.rates[k] == g.rates[k];
      RefundKeepsLabels(g, HeldOf(g, done), g.rates[k], now);
      var released := ReleaseRateReservation(tx, k, now);
      if released.Err? {
        assert k in HeldOf(g, keys);
        return Err(released.error);
      }
      ReleasedRow(g, done, k, now);
      tx, todo, done := released.value, todo - {k}, done + {k};
    }
    assert done == keys;
    return Ok(tx);
  }

  lemma ReleasedRow(g: Gateway, done: set<nat>, k: nat, now: int)
    requires Shaped(g) && done <= g.sessions.Keys && k in g.sessions && k !in done
    ensures var rates, buckets := HoldsReleased(g, done), RefundBuckets(g, HeldOf(g, done), now);
      if g.rates[k].status == Held then
        && HoldsReleased(g, done + {k}) == rates[k := rates[k].(status := Released)]
        && RefundBuckets(g, HeldOf(g, done + {k}), now) == ReleaseOne(buckets, g.rates[k], now)
      else HoldsReleased(g, done + {k}) == rates && RefundBuckets(g, HeldOf(g, done + {k}), now) == buckets
  {
    if g.rates[k].status == Held {
      assert HeldOf(g, done + {k}) == HeldOf(g, done) + {k};
      RefundGrows(g, HeldOf(g, done), k, now);
    } else {
      assert HeldOf(g, done + {k}) == HeldOf(g, done);
    }
  }

  // ---- Third pass: waiting sessions ----

  function WithoutWaiting(g: Gateway, accounts: map<nat, Account>, scope: Option<nat>): map<nat, Account>
    requires Shaped(g)
  {
    map e | e in accounts :: if InScope(scope, e) then Less(accounts[e], |Waiting(g, e)|, true) else accounts[e]
  }

  lemma WaitingGroups(g: Gateway, scope: Option<nat>, e: nat)
    requires Shaped(g)
    ensures e in Grouped(g, Idle(g, scope)) <==> InScope(scope, e) && Waiting(g, e) != {}
    ensures e in Grouped(g, Idle(g, scope)) ==> GroupOf(g, Idle(g, scope), e) == Waiting(g, e)
  {
    var rows := Idle(g, scope);
    if InScope(scope, e) && Waiting(g, e) != {} {
      var k :| k in Waiting(g, e);
      assert k in rows;
    }
    if e in EngagementsOf(g, rows) {
      var k :| k in rows && g.reservations[k].engagement == e;
      assert k in Waiting(g, e);
    }
  }

  lemma WaitingAccount(g: Gateway, accounts: map<nat, Account>, scope: Option<nat>, e: nat)
    requires Shaped(g) && e in accounts && accounts[e].reserved >= 0 && accounts[e].active >= 0
    ensures Underflows(accounts, Grouped(g, Idle(g, scope)), true, e) <==>
      InScope(scope, e) && (accounts[e].reserved < |Waiting(g, e)| || accounts[e].active < |Waiting(g, e)|)
    ensures WithoutWaiting(g, accounts, scope)[e] ==
      if e in Grouped(g, Idle(g, scope)) then Less(accounts[e], Grouped(g, Idle(g, scope))[e], true) else accounts[e]
  {
    WaitingGroups(g, scope, e);
  }

  method SubtractWaiting(g: Gateway, scope: Option<nat>) returns (r: Result<map<nat, Account>, Code>)
    requires Shaped(g) && CountersChecked(g)
    ensures r.Err? <==> ThirdFails(g, scope)
    ensures r.Ok? ==> r.value == WithoutWaiting(g, g.accounts, scope)
    ensures r.Err? ==> r.error == IntegrityFailure
  {
    WaitingAccounts(g, scope);
    r := SubtractGroups(g.accounts, Grouped(g, Idle(g, scope)), true);
  }

  lemma WaitingAccounts(g: Gateway, scope: Option<nat>)
    requires Shaped(g) && CountersChecked(g)
    ensures var groups := Grouped(g, Idle(g, scope));
      && ((exists e :: Underflows(g.accounts, groups, true, e)) <==> ThirdFails(g, scope))
      && WithoutWaiting(g, g.accounts, scope) == map e | e in g.accounts :: if e in groups then Less(g.accounts[e], groups[e], true) else g.accounts[e]
  {
    var groups := Grouped(g, Idle(g, scope));
    forall e | e in g.accounts
      ensures Underflows(g.accounts, groups, true, e) <==>
        InScope(scope, e) && (g.accounts[e].reserved < |Waiting(g, e)| || g.accounts[e].active < |Waiting(g, e)|)
      ensures WithoutWaiting(g, g.accounts, scope)[e] == if e in groups then Less(g.accounts[e], groups[e], true) else g.accounts[e]
    {
      WaitingAccount(g, g.accounts, scope, e);
    }
  }

  function ReservationsReleased(g: Gateway, scope: Option<nat>): map<nat, Reservation> {
    map k | k in g.reservations ::
      if g.reservations[k].status == Held && InScope(scope, g.reservations[k].engagement)
      then g.reservations[k].(status := Released) else g.reservations[k]
  }

  function Prepareds(g: Gateway, scope: Option<nat>): set<nat>
    requires Shaped(g)
  {
    set k | k in g.sessions && g.sessions[k].status == Prepared && InScope(scope, g.reservations[k].engagement)
  }

  function PreparedAborted(g: Gateway, scope: Option<nat>): map<nat, Session>
    requires Shaped(g)
  {
    map k | k in g.sessions :: if k in Prepareds(g, scope) then g.sessions[k].(status := Aborted) else g.sessions[k]
  }

  method ReleaseWaiting(g: Gateway, scope: Option<nat>) returns (r: Result<Gateway, Code>, aborted: nat)
    requires Shaped(g) && CountersChecked(g)
    ensures r.Err? <==> ThirdFails(g, scope)
    ensures r.Ok? ==> r.value == ThirdPass(g, scope)
    ensures aborted == |Prepareds(g, scope)|
  {
    aborted := |Prepareds(g, scope)|;
    var accounts := SubtractWaiting(g, scope);
    if accounts.Err? { r := Err(accounts.error); return; }
    r := Ok(g.(accounts := accounts.value, reservations := ReservationsReleased(g, scope), sessions := PreparedAborted(g, scope)));
  }

  // ---- The whole sweep ----

  predicate FirstFails(g: Gateway, scope: Option<nat>)
    requires Shaped(g)
  {
    exists e :: e in g.accounts && InScope(scope, e) && g.accounts[e].active < |Running(g, e)|
  }

  predicate SecondFails(g: Gateway, scope: Option<nat>)
    requires Shaped(g)
  {
    exists k :: k in HeldOf(g, Idle(g, scope)) && !BucketsMatch(g.buckets, g.rates[k])
  }

  function SecondPass(g: Gateway, scope: Option<nat>, now: int): Gateway
    requires Shaped(g)
  {
    g.(buckets := RefundBuckets(g, HeldOf(g, Idle(g, scope)), now), rates := HoldsReleased(g, Idle(g, scope)))
  }

  predicate ThirdFails(g: Gateway, scope: Option<nat>)
    requires Shaped(g)
  {
    exists e :: e in g.accounts && InScope(scope, e) && (g.accounts[e].reserved < |Waiting(g, e)| || g.accounts[e].active < |Waiting(g, e)|)
  }

  function ThirdPass(g: Gateway, scope: Option<nat>): Gateway
    requires Shaped(g)
  {
    g.(accounts := WithoutWaiting(g, g.accounts, scope), reservations := ReservationsReleased(g, scope), sessions := PreparedAborted(g, scope))
  }

  /** The tables that decide what is idle or waiting are the same before and after a pass. */
  predicate SameIdle(g: Gateway, g': Gateway, scope: Option<nat>) {
    && Shaped(g) && Shaped(g') && g'.reservations == g.reservations
    && g'.sessions.Keys == g.sessions.Keys && g'.starts.Keys == g.starts.Keys
    && (forall k :: k in g.sessions && k !in g.starts ==> g'.sessions[k] == g.sessions[k])
    && (forall k :: k in g.starts && g'.sessions[k].status == Prepared ==> g.sessions[k].status == Prepared)
  }

  lemma FirstPassIdle(g: Gateway, scope: Option<nat>)
    requires Shaped(g)
    ensures SameIdle(g, FirstPass(g, scope), scope)
  {
    var g1 := FirstPass(g, scope);
    assert g1.sessions.Keys == g.sessions.Keys && g1.starts.Keys == g.starts.Keys && g1.claims.Keys == g.claims.Keys;
  }

  lemma SecondPassIdle(g: Gateway, scope: Option<nat>, now: int)
    requires Shaped(g)
    ensures SameIdle(g, SecondPass(g, scope, now), scope)
  {
    assert SecondPass(g, scope, now).rates.Keys == g.rates.Keys;
  }

  lemma IdleKept(g: Gateway, g': Gateway, scope: Option<nat>)
    requires SameIdle(g, g', scope)
    ensures Idle(g', scope) == Idle(g, scope)
  {
  }

  lemma WaitingKept(g: Gateway, g': Gateway, scope: Option<nat>, e: nat)
    requires SameIdle(g, g', scope)
    ensures Waiting(g', e) == Waiting(g, e)
  {
  }

  ghost function Passes(g: Gateway, scope: Option<nat>, now: int): Gateway
    requires Shaped(g)
  {
    FirstPassIdle(g, scope);
    SecondPassIdle(FirstPass(g, scope), scope, now);
    ThirdPass(SecondPass(FirstPass(g, scope), scope, now), scope)
  }

  lemma SweptRates(g: Gateway, g1: Gateway, scope: Option<nat>, now: int)
    requires Shaped(g) && g1.rates == g.rates
    ensures HeldOf(g1, Idle(g, scope)) == Refundable(g, scope)
    ensures HoldsReleased(g1, Idle(g, scope)) == Swept(g, scope, now).rates
  {
  }

  lemma PassesRates(g: Gateway, scope: Option<nat>, now: int)
    requires Shaped(g)
    ensures Passes(g, scope, now).rates == Swept(g, scope, now).rates
  {
    FirstPassIdle(g, scope);
    var g1 := FirstPass(g, scope);
    IdleKept(g, g1, scope);
    SweptRates(g, g1, scope, now);
    assert Passes(g, scope, now).rates == HoldsReleased(g1, Idle(g, scope));
  }

  lemma FirstPassRefunds(g: Gateway, g1: Gateway, keys: set<nat>, now: int)
    requires Shaped(g) && Shaped(g1) && g1.rates == g.rates && g1.buckets == g.buckets && keys <= g.sessions.Keys && keys <= g1.sessions.Keys
    ensures RefundBuckets(g1, keys, now) == RefundBuckets(g, keys, now)
  {
    assert forall id :: RefundsInto(g1, keys, id) == RefundsInto(g, keys, id);
  }

  lemma PassesBuckets(g: Gateway, scope: Option<nat>, now: int)
    requires Shaped(g)
    ensures Passes(g, scope, now).buckets == Swept(g, scope, now).buckets
  {
    FirstPassIdle(g, scope);
    var g1 := FirstPass(g, scope);
    IdleKept(g, g1, scope);
    var keys := Refundable(g, scope);
    SweptRates(g, g1, scope, now);
    FirstPassRefunds(g, g1, keys, now);
    assert Passes(g, scope, now).buckets == RefundBuckets(g, keys, now);
  }

  lemma PassesAccount(g: Gateway, scope: Option<nat>, now: int, e: nat)
    requires Shaped(g) && e in g.accounts
    ensures e in Passes(g, scope, now).accounts && Passes(g, scope, now).accounts[e] == Swept(g, scope, now).accounts[e]
  {
    FirstPassIdle(g, scope);
    var g1 := FirstPass(g, scope);
    SecondPassIdle(g1, scope, now);
    WaitingKept(g, g1, scope, e);
    WaitingKept(g1, SecondPass(g1, scope, now), scope, e);
    OpenSplits(g, e);
  }

  lemma SweptSessions(g: Gateway, g2: Gateway, scope: Option<nat>, now: int)
    requires Shaped(g) && Shaped(g2) && g2.sessions == RunningAborted(g, scope) && g2.reservations == g.reservations
    ensures PreparedAborted(g2, scope) == Swept(g, scope, now).sessions
  {
  }

  lemma PassesSessions(g: Gateway, scope: Option<nat>, now: int)
    requires Shaped(g)
    ensures Passes(g, scope, now).sessions == Swept(g, scope, now).sessions
  {
    FirstPassIdle(g, scope);
    var g1 := FirstPass(g, scope);
    SecondPassIdle(g1, scope, now);
    SweptSessions(g, SecondPass(g1, scope, now), scope, now);
  }

  lemma PassesRows(g: Gateway, scope: Option<nat>, now: int)
    requires Shaped(g)
    ensures Passes(g, scope, now).reservations == Swept(g, scope, now).reservations
    ensures Passes(g, scope, now).starts == Swept(g, scope, now).starts
    ensures Passes(g, scope, now).claims == Swept(g, scope, now).claims
  {
  }

  /** The three passes amount to the closed form. */
  lemma PassesCompose(g: Gateway, scope: Option<nat>, now: int)
    requires Shaped(g)
    ensures Passes(g, scope, now) == Swept(g, scope, now)
  {
    PassesRates(g, scope, now);
    PassesBuckets(g, scope, now);
    PassesSessions(g, scope, now);
    PassesRows(g, scope, now);
    forall e | e in g.accounts
      ensures e in Passes(g, scope, now).accounts && Passes(g, scope, now).accounts[e] == Swept(g, scope, now).accounts[e]
    {
      PassesAccount(g, scope, now, e);
    }
    assert Passes(g, scope, now).accounts.Keys == g.accounts.Keys;
    assert Passes(g, scope, now).accounts == Swept(g, scope, now).accounts;
  }

  lemma SecondFailsWhen(g: Gateway, scope: Option<nat>)
    requires Shaped(g) && Shaped(FirstPass(g, scope))
    ensures SecondFails(FirstPass(g, scope), scope) <==> RateStateBroken(g, scope)
  {
    FirstPassIdle(g, scope);
    var g1 := FirstPass(g, scope);
    IdleKept(g, g1, scope);
    assert HeldOf(g1, Idle(g1, scope)) == Refundable(g, scope);
  }

  /** One account goes below zero in the first or the third pass exactly when it would in one step. */
  lemma UnderflowSplits(g: Gateway, g2: Gateway, scope: Option<nat>, e: nat)
    requires Shaped(g) && Shaped(g2) && e in g.accounts && InScope(scope, e)
    requires g2.accounts == WithoutRunning(g, scope) && Waiting(g2, e) == Waiting(g, e)
    ensures (SweptAccount(g, e).reserved < 0 || SweptAccount(g, e).active < 0) <==>
      || g.accounts[e].active < |Running(g, e)|
      || g2.accounts[e].reserved < |Waiting(g2, e)| || g2.accounts[e].active < |Waiting(g2, e)|
  {
    OpenSplits(g, e);
  }

  lemma ThirdFailsWhen(g: Gateway, g2: Gateway, scope: Option<nat>)
    requires Shaped(g) && Shaped(g2) && g2.accounts == WithoutRunning(g, scope) && forall e :: Waiting(g2, e) == Waiting(g, e)
    ensures FirstFails(g, scope) || ThirdFails(g2, scope) <==> AccountsUnderflow(g, scope)
  {
    forall e | e in g.accounts && InScope(scope, e)
      ensures (SweptAccount(g, e).reserved < 0 || SweptAccount(g, e).active < 0) <==>
        || g.accounts[e].active < |Running(g, e)|
        || g2.accounts[e].reserved < |Waiting(g2, e)| || g2.accounts[e].active < |Waiting(g2, e)|
    {
      UnderflowSplits(g, g2, scope, e);
    }
  }

  lemma PassesFailWhen(g: Gateway, scope: Option<nat>, now: int)
    requires Shaped(g)
    ensures SameIdle(g, FirstPass(g, scope), scope) && SameIdle(FirstPass(g, scope), SecondPass(FirstPass(g, scope), scope, now), scope)
    ensures Sweep(g, scope, now).Err? <==>
      FirstFails(g, scope) || SecondFails(FirstPass(g, scope), scope) || ThirdFails(SecondPass(FirstPass(g, scope), scope, now), scope)
  {
    FirstPassIdle(g, scope);
    var g1 := FirstPass(g, scope);
    SecondPassIdle(g1, scope, now);
    var g2 := SecondPass(g1, scope, now);
    forall e ensures Waiting(g2, e) == Waiting(g, e) {
      WaitingKept(g, g1, scope, e);
      WaitingKept(g1, g2, scope, e);
    }
    SecondFailsWhen(g, scope);
    ThirdFailsWhen(g, g2, scope);
  }

  lemma CountersStay(g: Gateway, g2: Gateway, scope: Option<nat>)
    requires Shaped(g) && CountersChecked(g) && !FirstFails(g, scope) && g2.accounts == WithoutRunning(g, scope)
    ensures CountersChecked(g2)
  {
  }

  lemma PreparedsLeft(g: Gateway, scope: Option<nat>, now: int)
    requires Shaped(g) && SameIdle(g, FirstPass(g, scope), scope) && SameIdle(FirstPass(g, scope), SecondPass(FirstPass(g, scope), scope, now), scope)
    ensures Prepareds(SecondPass(FirstPass(g, scope), scope, now), scope) == Idle(g, scope)
  {
    var g2 := SecondPass(FirstPass(g, scope), scope, now);
    assert g2.sessions == RunningAborted(g, scope);
  }

  method ReleaseIdle(g: Gateway, scope: Option<nat>, now: int) returns (r: Result<Gateway, Code>)
    requires Shaped(g)
    ensures r.Err? <==> SecondFails(g, scope)
    ensures r.Ok? ==> r.value == SecondPass(g, scope, now)
  {
    r := ReleaseHolds(g, Idle(g, scope), now);
  }

  /** The passes one after the other; the first failure ends the sweep. */
  method RunPasses(g: Gateway, scope: Option<nat>, now: int) returns (r: Result<Gateway, Code>, count: nat)
    requires Shaped(g) && StartsLabelled(g) && CountersChecked(g)
    requires Shaped(FirstPass(g, scope)) && Shaped(SecondPass(FirstPass(g, scope), scope, now))
    ensures r.Err? <==>
      FirstFails(g, scope) || SecondFails(FirstPass(g, scope), scope) || ThirdFails(SecondPass(FirstPass(g, scope), scope, now), scope)
    ensures r.Ok? ==> r.value == ThirdPass(SecondPass(FirstPass(g, scope), scope, now), scope)
    ensures r.Ok? ==> count == |Committed(g, scope)| + |Prepareds(SecondPass(FirstPass(g, scope), scope, now), scope)|
  {
    count := 0;
    var first, cancelled := CancelStarts(g, scope);
    if first.Err? { r := Err(first.error); return; }
    var g1 := first.value;
    var second := ReleaseIdle(g1, scope, now);
    if second.Err? { r := Err(second.error); return; }
    var g2 := second.value;
    CountersStay(g, g2, scope);
    var third, aborted := ReleaseWaiting(g2, scope);
    if third.Err? { r := Err(third.error); return; }
    r, count := Ok(third.value), cancelled + aborted;
  }

  lemma SweepRestores(g: Gateway, scope: Option<nat>, now: int)
    requires Shaped(g)
    ensures forall id :: id in g.buckets && BucketBounded(g.buckets[id]) ==>
      Restored(g.buckets[id], Swept(g, scope, now).buckets[id], |HoldsOn(g, HeldOf(g, Idle(g, scope)), id)|, now)
  {
    assert HeldOf(g, Idle(g, scope)) == Refundable(g, scope);
    HoldsRestore(g, Refundable(g, scope), now);
  }

  /**
   * The sweep fails exactly when the closed form does, and otherwise computes it. The number it
   * returns counts every start still labelled committed, even one whose session has closed.
   */
  method AbortGatewaySessions(g: Gateway, scope: Option<nat>, now: int) returns (r: Result<Gateway, Code>, count: nat)
    requires Shaped(g) && StartsLabelled(g) && CountersChecked(g)
    ensures r.Ok? <==> Sweep(g, scope, now).Ok?
    ensures r.Ok? ==> r.value == Swept(g, scope, now) && count == |Committed(g, scope)| + |Idle(g, scope)|
    ensures r.Ok? ==> forall id :: id in g.buckets && BucketBounded(g.buckets[id]) ==>
      Restored(g.buckets[id], r.value.buckets[id], |HoldsOn(g, HeldOf(g, Idle(g, scope)), id)|, now)
  {
    SweepRestores(g, scope, now);
    PassesFailWhen(g, scope, now);
    PassesCompose(g, scope, now);
    PreparedsLeft(g, scope, now);
    r, count := RunPasses(g, scope, now);
  }

  /** The returned number is the number of sessions aborted exactly when no finished start is still labelled committed. */
  lemma SweepCountExact(g: Gateway, scope: Option<nat>)
    requires Shaped(g) && StartsLabelled(g)
    ensures |Committed(g, scope)| + |Idle(g, scope)| == |Prepareds(g, scope)| <==>
      forall k :: k in Committed(g, scope) ==> g.sessions[k].status == Prepared
    ensures |Committed(g, scope)| + |Idle(g, scope)| >= |Prepareds(g, scope)|
  {
    var running := Prepareds(g, scope) - Idle(g, scope);
    assert running <= Committed(g, scope);
    assert |running| == |Prepareds(g, scope)| - |Idle(g, scope)| by { assert Idle(g, scope) <= Prepareds(g, scope); }
    assert |Committed(g, scope) - running| == |Committed(g, scope)| - |running|;
    assert forall k :: k in Committed(g, scope) - running ==> g.sessions[k].status != Prepared;
    assert Committed(g, scope) - running == {} <==> forall k :: k in Committed(g, scope) ==> g.sessions[k].status == Prepared;
  }
}
