/**
 * When the safety and policy operations succeed in a state that satisfies the invariant, and what every
 * row looks like afterwards.
 */
module SafetyMeaning {
  import opened Common
  import opened AuthorityModel
  import opened GatewayInvariant
  import opened TokenLevels
  import opened AuthorityInvariant
  import opened GatewaySweep
  import opened ResponseAccounting

  // ---- The gateway after a sweep ----

  /** In scope the session is aborted if it was open and its holds are released; out of scope nothing changes. */
  ghost predicate RowQuieted(g: Gateway, g': Gateway, scope: Option<nat>, k: nat)
    requires Shaped(g) && Shaped(g') && k in g.sessions
  {
    if !InScope(scope, g.reservations[k].engagement) then SameRow(g, g', k)
    else
      && k in g'.sessions
      && g'.sessions[k] == g.sessions[k].(status := if g.sessions[k].status == Prepared then Aborted else g.sessions[k].status)
      && g'.reservations[k] == g.reservations[k].(status := if g.reservations[k].status == Held then Released else g.reservations[k].status)
      && g'.rates[k] == g.rates[k].(status := if g.rates[k].status == Held then Released else g.rates[k].status)
      && (k in g'.starts <==> k in g.starts) && (k in g.starts ==> g'.starts[k] == g.starts[k].(cancelled := true))
      && (k in g'.claims <==> k in g.claims)
      && (k in g.claims ==> g'.claims[k] == g.claims[k].(status := if g.claims[k].status == Claimed then Abandoned else g.claims[k].status))
  }

  /** In scope nothing is reserved or connected any more; what was committed stays committed. */
  ghost predicate AccountQuieted(g: Gateway, g': Gateway, scope: Option<nat>, e: nat)
    requires e in g.accounts
  {
    e in g'.accounts && g'.accounts[e] == if InScope(scope, e) then g.accounts[e].(reserved := 0, active := 0) else g.accounts[e]
  }

  /** The tokens of the bucket held by waiting sessions in scope. */
  ghost function HeldTokens(g: Gateway, scope: Option<nat>, id: BucketId): set<nat> {
    set k | k in g.rates && g.rates[k].status == Held && InScope(scope, g.rates[k].engagement) && IsBucketOf(id, g.rates[k].engagement, g.rates[k].host)
  }

  /** Every session in scope is over, its account is clear, and the tokens it held are back in their buckets. */
  ghost predicate Quieted(g: Gateway, g': Gateway, scope: Option<nat>, now: int) {
    && Shaped(g) && Shaped(g') && g'.sessions.Keys == g.sessions.Keys && g'.results == g.results
    && g'.accounts.Keys == g.accounts.Keys && g'.buckets.Keys == g.buckets.Keys
    && (forall k {:trigger RowQuieted(g, g', scope, k)} :: k in g.sessions ==> RowQuieted(g, g', scope, k))
    && (forall e {:trigger AccountQuieted(g, g', scope, e)} :: e in g.accounts ==> AccountQuieted(g, g', scope, e))
    && (forall id :: id in g.buckets ==> Restored(g.buckets[id], g'.buckets[id], |HeldTokens(g, scope, id)|, now))
  }

  lemma RowQuiets(g: Gateway, g': Gateway, scope: Option<nat>, k: nat)
    requires Shaped(g) && Shaped(g') && k in g.sessions && RowConsistent(g, k) && SweptCells(g, g', scope, k)
    ensures RowQuieted(g, g', scope, k)
  {
  }

  lemma AccountQuiets(g: Gateway, scope: Option<nat>, now: int, e: nat)
    requires Shaped(g) && e in g.accounts && Balanced(g, e)
    ensures AccountQuieted(g, Swept(g, scope, now), scope, e)
  {
  }

  lemma TokensQuiet(g: Gateway, scope: Option<nat>, now: int, id: BucketId)
    requires GatewayInv(g) && id in g.buckets
    ensures id in Swept(g, scope, now).buckets && Restored(g.buckets[id], Swept(g, scope, now).buckets[id], |HeldTokens(g, scope, id)|, now)
  {
    SweepRestores(g, scope, now);
    assert BucketBounded(g.buckets[id]);
    SameHolds(g, scope, id);
  }

  lemma SameHolds(g: Gateway, scope: Option<nat>, id: BucketId)
    requires Shaped(g) && RowsConsistent(g)
    ensures HeldTokens(g, scope, id) == HoldsOn(g, HeldOf(g, Idle(g, scope)), id)
  {
    forall k: nat ensures k in HeldTokens(g, scope, id) <==> k in HoldsOn(g, HeldOf(g, Idle(g, scope)), id) {
      if k in g.sessions { assert RowConsistent(g, k); }
    }
  }

  lemma SweepQuiets(g: Gateway, scope: Option<nat>, now: int)
    requires GatewayInv(g)
    ensures Sweep(g, scope, now) == Ok(Swept(g, scope, now)) && Quieted(g, Swept(g, scope, now), scope, now)
  {
    var g' := Swept(g, scope, now);
    SweepSucceeds(g, scope, now);
    SweptShape(g, scope, now);
    forall k | k in g.sessions ensures RowQuieted(g, g', scope, k) {
      assert RowConsistent(g, k);
      SweptCellsHold(g, g', scope, now, k);
      RowQuiets(g, g', scope, k);
    }
    forall e | e in g.accounts ensures AccountQuieted(g, g', scope, e) {
      assert Balanced(g, e);
      AccountQuiets(g, scope, now, e);
    }
    forall id | id in g.buckets ensures Restored(g.buckets[id], g'.buckets[id], |HeldTokens(g, scope, id)|, now) {
      TokensQuiet(g, scope, now, id);
    }
  }

  // ---- Grants and attestations ----

  /** Unused grants in scope are revoked; no other grant changes. */
  ghost predicate GrantsRevoked(a: Authority, a': Authority, scope: Option<nat>) {
    && a'.grants.Keys == a.grants.Keys
    && forall g :: g in a.grants ==>
         (a'.grants[g] == if InScope(scope, a.grants[g].engagement) && !a.grants[g].used then a.grants[g].(revoked := true) else a.grants[g])
  }

  /** Attestations in scope are no longer valid; no other one changes. */
  ghost predicate AttestationsVoided(a: Authority, a': Authority, scope: Option<nat>) {
    && a'.attestations.Keys == a.attestations.Keys
    && forall t :: t in a.attestations ==>
         (a'.attestations[t] == if InScope(scope, a.attestations[t].engagement) then a.attestations[t].(valid := false) else a.attestations[t])
  }

  // ---- Global safety ----

  /** The global state is the requested one; engagements that were active are paused at the next epoch, the others are as they were. */
  ghost predicate Halted(db: Database, db': Database, status: GlobalStatus, now: int) {
    var a, a' := db.authority, db'.authority;
    && a'.global == status && a'.policies == a.policies && a'.decisions == a.decisions && a'.destinations == a.destinations
    && a'.engagements.Keys == a.engagements.Keys
    && (forall e :: e in a.engagements ==>
          (a'.engagements[e] == if a.engagements[e].status != Active then a.engagements[e]
                                else a.engagements[e].(status := Paused, epoch := a.engagements[e].epoch + 1)))
    && GrantsRevoked(a, a', None) && AttestationsVoided(a, a', None) && Quieted(db.gateway, db'.gateway, None, now)
  }

  lemma HaltDoes(db: Database, status: GlobalStatus, now: int)
    requires Inv(db)
    ensures HaltEverything(db, status, now).Ok? && Halted(db, HaltEverything(db, status, now).value, status, now)
  {
    SweepQuiets(db.gateway, None, now);
  }

  /** A global change needs a reason and nothing else; it halts everything, or only lifts the halt. */
  lemma GlobalMeaning(db: Database, status: GlobalStatus, now: int, reasonGiven: bool)
    requires Inv(db)
    ensures var r := SetGlobalSafety(db, status, now, reasonGiven);
      && (r.Ok? <==> reasonGiven)
      && (r.Ok? && status != GlobalActive ==> Halted(db, r.value, status, now))
      && (r.Ok? && status == GlobalActive ==> r.value == db.(authority := db.authority.(global := GlobalActive)))
  {
    if status != GlobalActive { HaltDoes(db, status, now); }
  }

  /** Startup always succeeds and leaves everything paused. */
  lemma RecoverMeaning(db: Database, now: int)
    requires Inv(db)
    ensures RecoverStartup(db, now).Ok? && Halted(db, RecoverStartup(db, now).value, GlobalPaused, now)
  {
    HaltDoes(db, GlobalPaused, now);
  }

  // ---- One engagement ----

  ghost predicate EngagementPaused(db: Database, db': Database, e: nat, now: int) {
    var a, a' := db.authority, db'.authority;
    && e in a.engagements && e in a'.engagements
    && a'.global == a.global && a'.policies == a.policies && a'.decisions == a.decisions && a'.destinations == a.destinations
    && a'.engagements == a.engagements[e := a'.engagements[e]]
    && a'.engagements[e].status == Paused && a'.engagements[e].epoch == a.engagements[e].epoch + 1
    && a'.engagements[e].activePolicy == a.engagements[e].activePolicy && a'.engagements[e].expiresAt == a.engagements[e].expiresAt
    && GrantsRevoked(a, a', Some(e)) && AttestationsVoided(a, a', Some(e)) && Quieted(db.gateway, db'.gateway, Some(e), now)
  }

  /** Pausing succeeds exactly for a known engagement with a reason. */
  lemma PauseMeaning(db: Database, e: nat, now: int, reasonGiven: bool)
    requires Inv(db)
    ensures var r := PauseAssessment(db, e, now, reasonGiven);
      && (r.Ok? <==> reasonGiven && e in db.authority.engagements)
      && (r.Ok? ==> EngagementPaused(db, r.value, e, now))
  {
    SweepQuiets(db.gateway, Some(e), now);
  }

  /** Resuming succeeds exactly while nothing is globally halted and the engagement's policy has not ended; only the status changes. */
  lemma ResumeMeaning(db: Database, e: nat, now: int, reasonGiven: bool, trusted: bool)
    requires Inv(db)
    ensures var r, a := ResumeAssessment(db, e, now, reasonGiven, trusted), db.authority;
      && (r.Ok? <==>
            && reasonGiven && trusted && a.global == GlobalActive && e in a.engagements && a.engagements[e].activePolicy.Some?
            && a.engagements[e].activePolicy.value in a.policies && now < a.policies[a.engagements[e].activePolicy.value].notAfter)
      && (r.Ok? ==> r.value == db.(authority := a.(engagements := a.engagements[e := a.engagements[e].(status := Active)])))
  {
    if e in db.authority.engagements { assert ActiveIsLive(db.authority, e); }
  }

  // ---- Policies ----

  ghost predicate PolicyWithdrawn(db: Database, db': Database, p: nat, now: int) {
    var a, a' := db.authority, db'.authority;
    && p in a.policies && a.policies[p].engagement in a.engagements
    && var e := a.policies[p].engagement;
       && a'.global == a.global && a'.decisions == a.decisions && a'.destinations == a.destinations
       && a'.policies == a.policies[p := a.policies[p].(revoked := true)]
       && a'.engagements == a.engagements[e := Engagement(Withdrawn, None, a.engagements[e].epoch + 1, a.engagements[e].expiresAt)]
       && GrantsRevoked(a, a', Some(e)) && AttestationsVoided(a, a', Some(e)) && Quieted(db.gateway, db'.gateway, Some(e), now)
  }

  /** Revoking succeeds exactly for a known policy with a reason; of version 2, only while it is live. */
  lemma RevokeMeaning(db: Database, p: nat, now: int, reasonGiven: bool)
    requires Inv(db)
    ensures var r, a := RevokePolicy(db, p, now, reasonGiven), db.authority;
      && (r.Ok? <==> reasonGiven && p in a.policies && (a.policies[p].version == V2 ==> a.policies[p].activated && !a.policies[p].revoked))
      && (r.Ok? ==> PolicyWithdrawn(db, r.value, p, now))
  {
    if p in db.authority.policies { SweepQuiets(db.gateway, Some(db.authority.policies[p].engagement), now); }
  }

  /** A new, supported policy; a version 2 one also needs everything active, an engagement that is not held back, and to be current. */
  ghost predicate MayActivate(a: Authority, p: nat, trusted: bool, current: bool)
    requires Linked(a)
  {
    && trusted && p in a.policies && a.policies[p].version != UnsupportedVersion && !a.policies[p].activated && !a.policies[p].revoked
    && (a.policies[p].version == V2 ==>
          current && a.global == GlobalActive && a.engagements[a.policies[p].engagement].status !in {Paused, Expired, Withdrawn})
  }

  /** Another policy of the engagement that is in use. */
  ghost predicate Rival(a: Authority, p: nat, q: nat)
    requires p in a.policies
  {
    q in a.policies && q != p && a.policies[q].engagement == a.policies[p].engagement && a.policies[q].activated && !a.policies[q].revoked
  }

  /** Of the engagement's policies, the new one is in use and any rival is revoked; no other policy changes. */
  ghost predicate PoliciesReplaced(a: Authority, a': Authority, p: nat)
    requires p in a.policies
  {
    && a'.policies.Keys == a.policies.Keys && a'.policies[p] == a.policies[p].(activated := true)
    && (forall q :: q in a.policies && q != p ==>
          (a'.policies[q] == if Rival(a, p, q) then a.policies[q].(revoked := true) else a.policies[q]))
  }

  /** The engagement is active under the policy; replacing a rival revokes its grants and moves to the next epoch. */
  ghost predicate EngagementTakesOver(a: Authority, a': Authority, p: nat)
    requires p in a.policies && a.policies[p].engagement in a.engagements
  {
    var e := a.policies[p].engagement;
    var replacing := exists q :: Rival(a, p, q);
    && a'.global == a.global && a'.decisions == a.decisions && a'.destinations == a.destinations
    && a'.engagements == a.engagements[e :=
         Engagement(Active, Some(p), a.engagements[e].epoch + (if replacing then 1 else 0), a.engagements[e].expiresAt)]
    && (if replacing then GrantsRevoked(a, a', Some(e)) else a'.grants == a.grants)
    && AttestationsVoided(a, a', Some(e))
  }

  ghost predicate PolicyActivated(db: Database, db': Database, p: nat, now: int) {
    var a := db.authority;
    && p in a.policies && a.policies[p].engagement in a.engagements
    && PoliciesReplaced(a, db'.authority, p) && EngagementTakesOver(a, db'.authority, p)
    && Quieted(db.gateway, db'.gateway, Some(a.policies[p].engagement), now)
  }

  lemma RivalsReplaced(a: Authority, p: nat)
    requires p in a.policies
    ensures (exists q :: Rival(a, p, q)) <==> exists q :: q in a.policies && Replaced(a, q, p)
  {
    if q :| Rival(a, p, q) { assert Replaced(a, q, p); }
    if q :| q in a.policies && Replaced(a, q, p) { assert Rival(a, p, q); }
  }

  lemma ActivatedPolicies(a: Authority, p: nat)
    requires p in a.policies && a.policies[p].engagement in a.engagements
    ensures PoliciesReplaced(a, ActivatedAuthority(a, p), p)
  {
    RivalsReplaced(a, p);
  }

  lemma ActivatedEngagement(a: Authority, p: nat)
    requires p in a.policies && a.policies[p].engagement in a.engagements
    ensures EngagementTakesOver(a, ActivatedAuthority(a, p), p)
  {
    RivalsReplaced(a, p);
    var e := a.policies[p].engagement;
    if exists q :: Rival(a, p, q) {
      assert a.engagements[e := a.engagements[e].(epoch := a.engagements[e].epoch + 1)][e := Engagement(Active, Some(p), a.engagements[e].epoch + 1, a.engagements[e].expiresAt)]
        == a.engagements[e := Engagement(Active, Some(p), a.engagements[e].epoch + 1, a.engagements[e].expiresAt)];
    }
  }

  /** Activating succeeds exactly when it may, and leaves the policy the engagement's only live one. */
  lemma ActivateMeaning(db: Database, p: nat, now: int, trusted: bool, current: bool)
    requires Inv(db)
    ensures var r := ActivatePolicy(db, p, now, trusted, current);
      && (r.Ok? <==> MayActivate(db.authority, p, trusted, current))
      && (r.Ok? ==> PolicyActivated(db, r.value, p, now))
  {
    if p in db.authority.policies {
      SweepQuiets(db.gateway, Some(db.authority.policies[p].engagement), now);
      ActivatedPolicies(db.authority, p);
      ActivatedEngagement(db.authority, p);
    }
  }

  // ---- Decisions and network evidence ----

  /** The engagement's active policy, when it and everything else is in force. */
  ghost predicate Governs(a: Authority, e: nat, p: nat) { InForce(a, e, p) && p in a.policies }

  ghost predicate Decided(db: Database, db': Database, d: nat, decision: Decision) {
    db' == db.(authority := db.authority.(decisions := db.authority.decisions[d := decision]))
  }

  /** A verdict is stored exactly under a version 1 policy in force, bound to it; an earlier decision is kept. */
  lemma EvaluateMeaning(db: Database, e: nat, d: nat, intent: nat, allowed: bool, trusted: bool)
    requires Inv(db)
    ensures var r, a := EvaluateIntent(db, e, d, intent, allowed, trusted), db.authority;
      && (r.Ok? <==> trusted && exists p :: Governs(a, e, p) && a.policies[p].version == V1)
      && (r.Ok? && d in a.decisions ==> r.value == db)
      && (r.Ok? && d !in a.decisions ==> exists p :: Governs(a, e, p) && Decided(db, r.value, d, Decision(e, p, intent, allowed)))
  {
    var a := db.authority;
    if e in a.engagements {
      assert ActiveIsLive(a, e);
      if a.engagements[e].activePolicy.Some? && a.engagements[e].status == Active && a.global == GlobalActive {
        assert Governs(a, e, a.engagements[e].activePolicy.value);
      }
    }
  }

  /** The new attestation is the engagement's only valid one, and bound to the policy in force. */
  ghost predicate Attested(a: Authority, a': Authority, t: nat, e: nat, p: nat, expiresAt: int) {
    && t !in a.attestations && a'.attestations.Keys == a.attestations.Keys + {t} && a'.attestations[t] == Attestation(e, p, expiresAt, true)
    && (forall s :: s in a.attestations ==>
          (a'.attestations[s] == if a.attestations[s].engagement == e then a.attestations[s].(valid := false) else a.attestations[s]))
    && a' == a.(attestations := a'.attestations)
  }

  lemma AttestMeaning(db: Database, t: nat, e: nat, expiresAt: int, trusted: bool)
    requires Inv(db)
    ensures var r, a := RecordAttestation(db, t, e, expiresAt, trusted), db.authority;
      && (r.Ok? <==> trusted && t !in a.attestations && exists p :: Governs(a, e, p))
      && (r.Ok? ==> exists p :: Governs(a, e, p) && Attested(a, r.value.authority, t, e, p, expiresAt))
  {
    var a := db.authority;
    if e in a.engagements {
      assert ActiveIsLive(a, e);
      if a.engagements[e].activePolicy.Some? && a.engagements[e].status == Active && a.global == GlobalActive {
        assert Governs(a, e, a.engagements[e].activePolicy.value);
      }
    }
  }

  /** A destination is recorded exactly for a live gateway grant in its window and a valid attestation of the same engagement and policy. */
  lemma AuthorizeMeaning(db: Database, d: nat, g: nat, t: nat, host: string, allowed: bool, now: int, trusted: bool)
    requires Inv(db)
    ensures var r, a := AuthorizeDestination(db, d, g, t, host, allowed, now, trusted), db.authority;
      && (r.Ok? <==>
            && trusted && d !in a.destinations && g in a.grants && t in a.attestations
            && Alive(a.grants[g]) && a.grants[g].audience == EgressGateway && a.grants[g].notBefore <= now < a.grants[g].expiresAt
            && a.attestations[t].valid && a.attestations[t].engagement == a.grants[g].engagement && a.attestations[t].policy == a.grants[g].policy)
      && (r.Ok? ==> r.value == db.(authority := a.(destinations := a.destinations[d := Destination(g, t, host, allowed)])))
  {
    var a := db.authority;
    if g in a.grants && Alive(a.grants[g]) {
      assert GrantBound(a, g);
      assert ActiveIsLive(a, a.grants[g].engagement);
    }
  }

  // ---- New engagements and policies ----

  /** A new engagement is a draft without a policy, at epoch 0. */
  lemma CreateMeaning(db: Database, e: nat, expiresAt: int)
    ensures var r, a := CreateEngagement(db, e, expiresAt), db.authority;
      && (r.Ok? <==> e !in a.engagements)
      && (r.Ok? ==> r.value.gateway == db.gateway && e in r.value.authority.engagements
                    && r.value.authority == a.(engagements := a.engagements[e := r.value.authority.engagements[e]])
                    && r.value.authority.engagements[e] == Engagement(Draft, None, 0, expiresAt))
  {
  }

  /** A compiled policy is stored as it is, neither activated nor revoked. */
  lemma CompileMeaning(db: Database, p: nat, row: Policy)
    ensures var r, a := CompilePolicy(db, p, row), db.authority;
      && (r.Ok? <==> row.engagement in a.engagements && p !in a.policies)
      && (r.Ok? ==> r.value.gateway == db.gateway && p in r.value.authority.policies
                    && r.value.authority == a.(policies := a.policies[p := r.value.authority.policies[p]])
                    && var stored := r.value.authority.policies[p];
                       !stored.activated && !stored.revoked && row == stored.(activated := row.activated, revoked := row.revoked))
  {
  }
}
