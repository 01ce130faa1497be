/**
 * What every reachable database satisfies: live authority exists only while its engagement, its
 * policy and the global safety state are in force, and the gateway tables agree with it.
 */
module AuthorityInvariant {
  import opened Common
  import opened AuthorityModel
  import opened GatewayInvariant
  import opened ResponseAccounting
  import TestingSchedule

  /** Engagement `e` runs under policy `p`, and nothing is paused. */
  ghost predicate InForce(a: Authority, e: nat, p: nat) {
    a.global == GlobalActive && e in a.engagements && a.engagements[e].status == Active && a.engagements[e].activePolicy == Some(p)
  }

  ghost predicate Alive(g: Grant) { !g.used && !g.revoked }

  ghost predicate NoRival(a: Authority, p: nat, q: nat)
    requires p in a.policies && q in a.policies
  {
    Live(a.policies[p]) && Live(a.policies[q]) && a.policies[p].engagement == a.policies[q].engagement ==> p == q
  }

  /** At most one policy of an engagement is activated and not revoked. */
  ghost predicate OneLivePolicy(a: Authority) {
    forall p, q {:trigger NoRival(a, p, q)} :: p in a.policies && q in a.policies ==> NoRival(a, p, q)
  }

  ghost predicate ActiveIsLive(a: Authority, e: nat)
    requires e in a.engagements
  {
    a.engagements[e].activePolicy.Some? ==>
      var p := a.engagements[e].activePolicy.value;
      p in a.policies && a.policies[p].engagement == e && Live(a.policies[p])
  }

  ghost predicate ActivePolicyLive(a: Authority) {
    forall e {:trigger ActiveIsLive(a, e)} :: e in a.engagements ==> ActiveIsLive(a, e)
  }

  ghost predicate GrantBound(a: Authority, g: nat)
    requires g in a.grants
  {
    Alive(a.grants[g]) ==>
      InForce(a, a.grants[g].engagement, a.grants[g].policy) && a.grants[g].epoch == a.engagements[a.grants[g].engagement].epoch
  }

  /** Every unused, unrevoked grant is bound to the policy and epoch now in force. */
  ghost predicate GrantsLive(a: Authority) {
    forall g {:trigger GrantBound(a, g)} :: g in a.grants ==> GrantBound(a, g)
  }

  ghost predicate AttestationBound(a: Authority, t: nat)
    requires t in a.attestations
  {
    a.attestations[t].valid ==> InForce(a, a.attestations[t].engagement, a.attestations[t].policy)
  }

  ghost predicate AttestationsLive(a: Authority) {
    forall t {:trigger AttestationBound(a, t)} :: t in a.attestations ==> AttestationBound(a, t)
  }

  ghost predicate AuthorityInv(a: Authority) {
    Linked(a) && OneLivePolicy(a) && ActivePolicyLive(a) && GrantsLive(a) && AttestationsLive(a)
  }

  // ---- The two halves together ----

  ghost function RateFor(b: Budgets, key: BucketKey): real { if key == AllHosts then b.globalRate else b.hostRate }

  /** A bucket carries the limits of the policy it is labelled with. */
  ghost predicate LabelAgrees(a: Authority, g: Gateway, id: BucketId)
    requires id in g.buckets
  {
    && g.buckets[id].policy in a.policies
    && g.buckets[id].capacity == a.policies[g.buckets[id].policy].budgets.burst
    && g.buckets[id].rate == RateFor(a.policies[g.buckets[id].policy].budgets, id.key)
  }

  ghost predicate LabelsAgree(a: Authority, g: Gateway) {
    forall id {:trigger LabelAgrees(a, g, id)} :: id in g.buckets ==> LabelAgrees(a, g, id)
  }

  /** A request was admitted by its policy's schedule, and must finish no later than the schedule said then. */
  ghost predicate Scheduled(policy: Policy, start: Start) {
    && start.committedAt < start.deadline
    && (policy.schedule.Some? ==>
          var d := TestingSchedule.Deadline(policy.schedule.value, start.committedAt);
          d.Some? && start.deadline <= d.value)
  }

  ghost predicate RowJoined(a: Authority, g: Gateway, k: nat)
    requires Shaped(g) && k in g.sessions
  {
    && g.reservations[k].engagement in a.engagements && g.reservations[k].policy in a.policies
    && g.reservations[k].grant in a.grants && g.sessions[k].attestation in a.attestations
  }

  /**
   * Session `k` repeats the engagement and policy of its grant; it is open only while they are in
   * force; its start, if any, has used the grant up and fits the schedule.
   */
  ghost predicate RowAgrees(a: Authority, g: Gateway, k: nat)
    requires Shaped(g) && k in g.sessions
  {
    var r := g.reservations[k];
    && RowJoined(a, g, k)
    && a.grants[r.grant].engagement == r.engagement && a.grants[r.grant].policy == r.policy
    && (g.sessions[k].status == Prepared ==> InForce(a, r.engagement, r.policy))
    && (k in g.starts ==> a.grants[r.grant].used && Scheduled(a.policies[r.policy], g.starts[k]))
  }

  ghost predicate RowsAgree(a: Authority, g: Gateway)
    requires Shaped(g)
  {
    forall k {:trigger RowAgrees(a, g, k)} :: k in g.sessions ==> RowAgrees(a, g, k)
  }

  ghost predicate Agree(a: Authority, g: Gateway) {
    Shaped(g) && Joined(a, g) && RowsAgree(a, g) && LabelsAgree(a, g)
  }

  ghost predicate Inv(db: Database) {
    AuthorityInv(db.authority) && GatewayInv(db.gateway) && Agree(db.authority, db.gateway)
  }

  lemma RowsJoin(a: Authority, g: Gateway)
    requires Shaped(g) && RowsAgree(a, g)
    ensures Joined(a, g)
  {
    forall k | k in g.sessions
      ensures RowJoined(a, g, k)
    {
      assert RowAgrees(a, g, k);
    }
  }

  // ---- What no operation undoes ----

  ghost predicate GrantAges(g: Grant, g': Grant) {
    && g'.engagement == g.engagement && g'.policy == g.policy && g'.decision == g.decision && g'.epoch == g.epoch
    && (g.used ==> g'.used) && (g.revoked ==> g'.revoked)
  }

  ghost predicate PolicyAges(p: Policy, p': Policy) {
    && p'.engagement == p.engagement && p'.budgets == p.budgets && p'.schedule == p.schedule
    && (p.activated ==> p'.activated) && (p.revoked ==> p'.revoked)
  }

  /** Rows are never deleted, identities never change, and use and revocation are permanent. */
  ghost predicate Extends(a: Authority, a': Authority) {
    && a.engagements.Keys <= a'.engagements.Keys && a.attestations.Keys <= a'.attestations.Keys
    && a.policies.Keys <= a'.policies.Keys && a.grants.Keys <= a'.grants.Keys
    && (forall p {:trigger PolicyAges(a.policies[p], a'.policies[p])} :: p in a.policies ==> PolicyAges(a.policies[p], a'.policies[p]))
    && (forall g {:trigger GrantAges(a.grants[g], a'.grants[g])} :: g in a.grants ==> GrantAges(a.grants[g], a'.grants[g]))
  }

  /** Outside the scope, what was in force still is. */
  ghost predicate ForceKept(a: Authority, a': Authority, scope: Option<nat>) {
    forall e, p {:trigger InForce(a', e, p)} :: InForce(a, e, p) && !InScope(scope, e) ==> InForce(a', e, p)
  }

  // ---- Withdrawing authority from a scope ----

  ghost predicate GrantQuelled(a: Authority, a': Authority, scope: Option<nat>, g: nat)
    requires g in a.grants && g in a'.grants
  {
    && GrantAges(a.grants[g], a'.grants[g])
    && (if InScope(scope, a.grants[g].engagement) then !Alive(a'.grants[g]) else a'.grants[g] == a.grants[g])
  }

  ghost predicate GrantsQuelled(a: Authority, a': Authority, scope: Option<nat>) {
    && a'.grants.Keys == a.grants.Keys
    && forall g {:trigger GrantQuelled(a, a', scope, g)} :: g in a.grants ==> GrantQuelled(a, a', scope, g)
  }

  ghost predicate AttestationQuelled(a: Authority, a': Authority, scope: Option<nat>, t: nat)
    requires t in a.attestations && t in a'.attestations
  {
    && a'.attestations[t].engagement == a.attestations[t].engagement && a'.attestations[t].policy == a.attestations[t].policy
    && (if InScope(scope, a.attestations[t].engagement) then !a'.attestations[t].valid else a'.attestations[t] == a.attestations[t])
  }

  ghost predicate AttestationsQuelled(a: Authority, a': Authority, scope: Option<nat>) {
    && a'.attestations.Keys == a.attestations.Keys
    && forall t {:trigger AttestationQuelled(a, a', scope, t)} :: t in a.attestations ==> AttestationQuelled(a, a', scope, t)
  }

  ghost predicate EngagementsQuelled(a: Authority, a': Authority, scope: Option<nat>) {
    && a'.engagements.Keys == a.engagements.Keys
    && (forall e :: e in a.engagements && !InScope(scope, e) ==> a'.engagements[e] == a.engagements[e])
    && (scope.Some? ==> a'.global == a.global)
  }

  ghost predicate PoliciesAge(a: Authority, a': Authority) {
    && a'.policies.Keys == a.policies.Keys
    && forall p {:trigger PolicyAges(a.policies[p], a'.policies[p])} :: p in a.policies ==> PolicyAges(a.policies[p], a'.policies[p])
  }

  ghost predicate PoliciesSound(a: Authority) { OneLivePolicy(a) && ActivePolicyLive(a) }

  /** All grants and attestations in scope are dead; everything out of scope is as it was. */
  ghost predicate Quelled(a: Authority, a': Authority, scope: Option<nat>) {
    && GrantsQuelled(a, a', scope) && AttestationsQuelled(a, a', scope) && EngagementsQuelled(a, a', scope)
    && PoliciesAge(a, a') && a'.decisions == a.decisions && a'.destinations == a.destinations
  }

  lemma QuelledLinked(a: Authority, a': Authority, scope: Option<nat>)
    requires Linked(a) && Quelled(a, a', scope)
    ensures Linked(a')
  {
    forall p | p in a'.policies ensures a'.policies[p].engagement in a'.engagements { assert PolicyAges(a.policies[p], a'.policies[p]); }
    forall g | g in a'.grants
      ensures a'.grants[g].engagement in a'.engagements && a'.grants[g].policy in a'.policies
    {
      assert GrantQuelled(a, a', scope, g);
    }
    forall t | t in a'.attestations
      ensures a'.attestations[t].engagement in a'.engagements && a'.attestations[t].policy in a'.policies
    {
      assert AttestationQuelled(a, a', scope, t);
    }
  }

  lemma QuelledForce(a: Authority, a': Authority, scope: Option<nat>)
    requires EngagementsQuelled(a, a', scope)
    ensures ForceKept(a, a', scope)
  {
  }

  lemma QuelledGrants(a: Authority, a': Authority, scope: Option<nat>)
    requires GrantsLive(a) && GrantsQuelled(a, a', scope) && EngagementsQuelled(a, a', scope)
    ensures GrantsLive(a')
  {
    forall g | g in a'.grants
      ensures GrantBound(a', g)
    {
      assert GrantQuelled(a, a', scope, g);
      assert GrantBound(a, g);
    }
  }

  lemma QuelledAttestations(a: Authority, a': Authority, scope: Option<nat>)
    requires AttestationsLive(a) && AttestationsQuelled(a, a', scope) && EngagementsQuelled(a, a', scope)
    ensures AttestationsLive(a')
  {
    forall t | t in a'.attestations
      ensures AttestationBound(a', t)
    {
      assert AttestationQuelled(a, a', scope, t);
      assert AttestationBound(a, t);
    }
  }

  lemma QuelledExtends(a: Authority, a': Authority, scope: Option<nat>)
    requires Quelled(a, a', scope)
    ensures Extends(a, a')
  {
    forall g | g in a.grants ensures GrantAges(a.grants[g], a'.grants[g]) { assert GrantQuelled(a, a', scope, g); }
  }

  lemma QuelledKeeps(a: Authority, a': Authority, scope: Option<nat>)
    requires AuthorityInv(a) && Quelled(a, a', scope) && PoliciesSound(a')
    ensures AuthorityInv(a') && Extends(a, a') && ForceKept(a, a', scope)
  {
    QuelledLinked(a, a', scope);
    QuelledForce(a, a', scope);
    QuelledGrants(a, a', scope);
    QuelledAttestations(a, a', scope);
    QuelledExtends(a, a', scope);
  }

  /** With the policies untouched, so are their invariants. */
  lemma PoliciesUntouched(a: Authority, a': Authority)
    requires PoliciesSound(a) && a'.policies == a.policies && a'.engagements.Keys == a.engagements.Keys
    requires forall e :: e in a.engagements ==> a'.engagements[e].activePolicy == a.engagements[e].activePolicy
    ensures PoliciesSound(a')
  {
    forall p, q | p in a'.policies && q in a'.policies ensures NoRival(a', p, q) { assert NoRival(a, p, q); }
    forall e | e in a'.engagements ensures ActiveIsLive(a', e) { assert ActiveIsLive(a, e); }
  }

  lemma PausedQuells(a: Authority, a': Authority, e: nat)
    requires e in a.engagements && a' == PausedAuthority(a, e)
    ensures Quelled(a, a', Some(e))
    ensures PoliciesSound(a) ==> PoliciesSound(a')
  {
    assert a'.policies == a.policies;
    if PoliciesSound(a) { PoliciesUntouched(a, a'); }
  }

  lemma HaltedQuells(a: Authority, a': Authority, status: GlobalStatus)
    requires a' == HaltedAuthority(a, status)
    ensures Quelled(a, a', None)
    ensures PoliciesSound(a) ==> PoliciesSound(a')
  {
    assert a'.policies == a.policies;
    if PoliciesSound(a) { PoliciesUntouched(a, a'); }
  }

  lemma WithdrawnQuells(a: Authority, a': Authority, p: nat)
    requires p in a.policies && a.policies[p].engagement in a.engagements && a' == WithdrawnAuthority(a, p)
    ensures Quelled(a, a', Some(a.policies[p].engagement))
  {
  }

  lemma WithdrawnPolicies(a: Authority, a': Authority, p: nat)
    requires p in a.policies && a.policies[p].engagement in a.engagements && a' == WithdrawnAuthority(a, p)
    requires PoliciesSound(a)
    ensures PoliciesSound(a')
  {
    assert a'.policies == a.policies[p := a.policies[p].(revoked := true)];
    var e := a.policies[p].engagement;
    forall x, y | x in a'.policies && y in a'.policies ensures NoRival(a', x, y) { assert NoRival(a, x, y); }
    forall x | x in a'.engagements
      ensures ActiveIsLive(a', x)
    {
      assert ActiveIsLive(a, x);
      assert x != e ==> a'.engagements[x] == a.engagements[x];
    }
  }

  lemma PausedKeeps(a: Authority, e: nat)
    requires AuthorityInv(a) && e in a.engagements
    ensures var a' := PausedAuthority(a, e); AuthorityInv(a') && Extends(a, a') && ForceKept(a, a', Some(e))
  {
    PausedQuells(a, PausedAuthority(a, e), e);
    QuelledKeeps(a, PausedAuthority(a, e), Some(e));
  }

  lemma HaltedKeeps(a: Authority, status: GlobalStatus)
    requires AuthorityInv(a)
    ensures var a' := HaltedAuthority(a, status); AuthorityInv(a') && Extends(a, a') && ForceKept(a, a', None)
  {
    HaltedQuells(a, HaltedAuthority(a, status), status);
    QuelledKeeps(a, HaltedAuthority(a, status), None);
  }

  lemma WithdrawnKeeps(a: Authority, p: nat)
    requires AuthorityInv(a) && p in a.policies
    ensures var a' := WithdrawnAuthority(a, p);
      AuthorityInv(a') && Extends(a, a') && ForceKept(a, a', Some(a.policies[p].engagement))
  {
    WithdrawnQuells(a, WithdrawnAuthority(a, p), p);
    WithdrawnPolicies(a, WithdrawnAuthority(a, p), p);
    QuelledKeeps(a, WithdrawnAuthority(a, p), Some(a.policies[p].engagement));
  }

  // ---- Replacing a policy ----

  /** A live grant names a live policy of its engagement, so activating another policy finds it. */
  lemma LiveGrantHasPrevious(a: Authority, p: nat, g: nat)
    requires GrantsLive(a) && ActivePolicyLive(a)
    requires p in a.policies && !a.policies[p].activated
    requires g in a.grants && Alive(a.grants[g]) && a.grants[g].engagement == a.policies[p].engagement
    ensures Replaced(a, a.grants[g].policy, p)
  {
    assert GrantBound(a, g);
    assert ActiveIsLive(a, a.grants[g].engagement);
  }

  lemma RetiredGrants(a: Authority, a': Authority, p: nat)
    requires p in a.policies && a.policies[p].engagement in a.engagements
    requires GrantsLive(a) && ActivePolicyLive(a) && !a.policies[p].activated
    requires a' == RetirePrevious(a, p)
    ensures GrantsQuelled(a, a', Some(a.policies[p].engagement))
  {
    var e := a.policies[p].engagement;
    forall g | g in a.grants
      ensures GrantQuelled(a, a', Some(e), g)
    {
      if a.grants[g].engagement == e && Alive(a.grants[g]) { LiveGrantHasPrevious(a, p, g); }
    }
  }

  lemma RetiredPolicies(a: Authority, a': Authority, p: nat)
    requires p in a.policies && a.policies[p].engagement in a.engagements && a' == RetirePrevious(a, p)
    ensures PoliciesAge(a, a') && a'.policies[p] == a.policies[p]
    ensures forall q :: q in a.policies ==>
      (a'.policies[q] == a.policies[q] || Replaced(a, q, p)) && (Replaced(a, q, p) ==> !Live(a'.policies[q]))
    ensures a'.engagements.Keys == a.engagements.Keys
    ensures forall x :: x in a.engagements && x != a.policies[p].engagement ==> a'.engagements[x] == a.engagements[x]
    ensures a'.attestations == a.attestations && a'.decisions == a.decisions && a'.destinations == a.destinations && a'.global == a.global
  {
  }

  lemma InstalledQuells(a: Authority, mid: Authority, a': Authority, p: nat)
    requires p in a.policies && a.policies[p].engagement in a.engagements && !a.policies[p].activated
    requires mid == RetirePrevious(a, p) && GrantsQuelled(a, mid, Some(a.policies[p].engagement))
    requires p in mid.policies && mid.policies[p] == a.policies[p] && a.policies[p].engagement in mid.engagements
    requires a' == InstallPolicy(mid, p)
    ensures Quelled(a, a', Some(a.policies[p].engagement))
  {
    var e := a.policies[p].engagement;
    RetiredPolicies(a, mid, p);
    assert a'.grants == mid.grants;
    forall g | g in a.grants ensures GrantQuelled(a, a', Some(e), g) { assert GrantQuelled(a, mid, Some(e), g); }
    forall q | q in a.policies ensures PolicyAges(a.policies[q], a'.policies[q]) { assert PolicyAges(a.policies[q], mid.policies[q]); }
  }

  lemma InstalledPolicies(a: Authority, mid: Authority, a': Authority, p: nat)
    requires p in a.policies && a.policies[p].engagement in a.engagements && PoliciesSound(a)
    requires !a.policies[p].activated && !a.policies[p].revoked
    requires mid == RetirePrevious(a, p)
    requires p in mid.policies && mid.policies[p] == a.policies[p] && a.policies[p].engagement in mid.engagements
    requires a' == InstallPolicy(mid, p)
    ensures PoliciesSound(a')
  {
    RetiredPolicies(a, mid, p);
    assert a'.policies == mid.policies[p := mid.policies[p].(activated := true)];
    forall x, y | x in a'.policies && y in a'.policies
      ensures NoRival(a', x, y)
    {
      assert PolicyAges(a.policies[x], mid.policies[x]) && PolicyAges(a.policies[y], mid.policies[y]);
      assert NoRival(a, x, y);
    }
    forall e | e in a'.engagements
      ensures ActiveIsLive(a', e)
    {
      assert ActiveIsLive(a, e);
      if e != a.policies[p].engagement { assert a'.engagements[e] == a.engagements[e]; }
    }
  }

  lemma ActivatedKeeps(a: Authority, p: nat)
    requires AuthorityInv(a) && p in a.policies && !a.policies[p].activated && !a.policies[p].revoked
    ensures var a' := ActivatedAuthority(a, p);
      AuthorityInv(a') && Extends(a, a') && ForceKept(a, a', Some(a.policies[p].engagement))
  {
    var mid, a' := RetirePrevious(a, p), ActivatedAuthority(a, p);
    RetiredGrants(a, mid, p);
    RetiredPolicies(a, mid, p);
    InstalledQuells(a, mid, a', p);
    InstalledPolicies(a, mid, a', p);
    QuelledKeeps(a, a', Some(a.policies[p].engagement));
  }

  // ---- Authority operations that add or spend ----

  /** Everything in force stays in force, and rows only age. */
  ghost predicate Grows(a: Authority, a': Authority) {
    AuthorityInv(a') && Extends(a, a') && ForceKept(a, a', None) && ForceGrows(a, a')
  }

  ghost predicate ForceGrows(a: Authority, a': Authority) {
    forall e, p {:trigger InForce(a', e, p)} :: InForce(a, e, p) ==> InForce(a', e, p)
  }

  /** Old rows of the four tables are unchanged, and what was in force still is. */
  ghost predicate RowsAdded(a: Authority, a': Authority) {
    && a.engagements.Keys <= a'.engagements.Keys && a.policies.Keys <= a'.policies.Keys
    && a.grants.Keys <= a'.grants.Keys && a.attestations.Keys <= a'.attestations.Keys
    && (forall e :: e in a.engagements ==> a'.engagements[e].activePolicy == a.engagements[e].activePolicy
                                            && a'.engagements[e].epoch == a.engagements[e].epoch)
    && (forall p :: p in a.policies ==> a'.policies[p] == a.policies[p])
    && (forall g :: g in a.grants ==> a'.grants[g] == a.grants[g] || a'.grants[g] == a.grants[g].(used := true))
    && (forall t :: t in a.attestations ==> a'.attestations[t] == a.attestations[t] || !a'.attestations[t].valid)
    && ForceGrows(a, a')
  }

  /** Rows that are new respect the invariant. */
  ghost predicate NewRowsSound(a: Authority, a': Authority) {
    && (forall e :: e in a'.engagements && e !in a.engagements ==> a'.engagements[e].activePolicy == None)
    && (forall p :: p in a'.policies && p !in a.policies ==> !Live(a'.policies[p]))
    && (forall g :: g in a'.grants && g !in a.grants ==> GrantBound(a', g))
    && (forall t :: t in a'.attestations && t !in a.attestations ==> AttestationBound(a', t))
  }

  lemma AddedExtends(a: Authority, a': Authority)
    requires RowsAdded(a, a')
    ensures Extends(a, a')
  {
  }

  lemma AddedPolicies(a: Authority, a': Authority)
    requires PoliciesSound(a) && RowsAdded(a, a') && NewRowsSound(a, a')
    ensures PoliciesSound(a')
  {
    forall p, q | p in a'.policies && q in a'.policies
      ensures NoRival(a', p, q)
    {
      if p in a.policies && q in a.policies { assert NoRival(a, p, q); }
    }
    forall e | e in a'.engagements
      ensures ActiveIsLive(a', e)
    {
      if e in a.engagements { assert ActiveIsLive(a, e); }
    }
  }

  lemma AddedGrants(a: Authority, a': Authority)
    requires GrantsLive(a) && AttestationsLive(a) && RowsAdded(a, a') && NewRowsSound(a, a')
    ensures GrantsLive(a') && AttestationsLive(a')
  {
    forall g | g in a'.grants
      ensures GrantBound(a', g)
    {
      if g in a.grants { assert GrantBound(a, g); }
    }
    forall t | t in a'.attestations
      ensures AttestationBound(a', t)
    {
      if t in a.attestations { assert AttestationBound(a, t); }
    }
  }

  lemma AddedGrows(a: Authority, a': Authority)
    requires AuthorityInv(a) && RowsAdded(a, a') && NewRowsSound(a, a') && Linked(a')
    ensures Grows(a, a')
  {
    AddedExtends(a, a');
    AddedPolicies(a, a');
    AddedGrants(a, a');
  }

  lemma CreateAdds(a: Authority, a': Authority, e: nat, expiresAt: int)
    requires Linked(a) && e !in a.engagements
    requires a' == a.(engagements := a.engagements[e := Engagement(Draft, None, 0, expiresAt)])
    ensures RowsAdded(a, a') && NewRowsSound(a, a') && Linked(a')
  {
  }

  lemma CreateGrows(a: Authority, a': Authority, e: nat, expiresAt: int)
    requires AuthorityInv(a) && e !in a.engagements
    requires a' == a.(engagements := a.engagements[e := Engagement(Draft, None, 0, expiresAt)])
    ensures Grows(a, a')
  {
    CreateAdds(a, a', e, expiresAt);
    AddedGrows(a, a');
  }

  lemma CompileAdds(a: Authority, a': Authority, p: nat, policy: Policy)
    requires Linked(a) && p !in a.policies && policy.engagement in a.engagements && !policy.activated && !policy.revoked
    requires a' == a.(policies := a.policies[p := policy])
    ensures RowsAdded(a, a') && NewRowsSound(a, a') && Linked(a')
  {
  }

  lemma CompileGrows(a: Authority, a': Authority, p: nat, policy: Policy)
    requires AuthorityInv(a) && p !in a.policies && policy.engagement in a.engagements && !policy.activated && !policy.revoked
    requires a' == a.(policies := a.policies[p := policy])
    ensures Grows(a, a')
  {
    CompileAdds(a, a', p, policy);
    AddedGrows(a, a');
  }

  lemma EvaluateAdds(a: Authority, a': Authority, d: nat, decision: Decision)
    requires Linked(a) && d !in a.decisions && decision.engagement in a.engagements && decision.policy in a.policies
    requires a' == a.(decisions := a.decisions[d := decision])
    ensures RowsAdded(a, a') && NewRowsSound(a, a') && Linked(a')
  {
  }

  lemma EvaluateGrows(a: Authority, a': Authority, d: nat, decision: Decision)
    requires AuthorityInv(a) && d !in a.decisions && decision.engagement in a.engagements && decision.policy in a.policies
    requires a' == a.(decisions := a.decisions[d := decision])
    ensures Grows(a, a')
  {
    EvaluateAdds(a, a', d, decision);
    AddedGrows(a, a');
  }

  lemma MintAdds(a: Authority, a': Authority, g: nat, grant: Grant)
    requires Linked(a) && g !in a.grants && InForce(a, grant.engagement, grant.policy) && grant.policy in a.policies
    requires grant.epoch == a.engagements[grant.engagement].epoch
    requires a' == a.(grants := a.grants[g := grant])
    ensures RowsAdded(a, a') && NewRowsSound(a, a') && Linked(a')
  {
  }

  lemma MintGrows(a: Authority, a': Authority, g: nat, grant: Grant)
    requires AuthorityInv(a) && g !in a.grants && InForce(a, grant.engagement, grant.policy) && grant.policy in a.policies
    requires grant.epoch == a.engagements[grant.engagement].epoch
    requires a' == a.(grants := a.grants[g := grant])
    ensures Grows(a, a')
  {
    MintAdds(a, a', g, grant);
    AddedGrows(a, a');
  }

  lemma SpendAdds(a: Authority, a': Authority, g: nat)
    requires Linked(a) && g in a.grants
    requires a' == a.(grants := a.grants[g := a.grants[g].(used := true)])
    ensures RowsAdded(a, a') && NewRowsSound(a, a') && Linked(a')
  {
  }

  lemma SpendGrows(a: Authority, a': Authority, g: nat)
    requires AuthorityInv(a) && g in a.grants
    requires a' == a.(grants := a.grants[g := a.grants[g].(used := true)])
    ensures Grows(a, a')
  {
    SpendAdds(a, a', g);
    AddedGrows(a, a');
  }

  lemma AttestAdds(a: Authority, a': Authority, t: nat, row: Attestation)
    requires Linked(a) && t !in a.attestations && InForce(a, row.engagement, row.policy) && row.policy in a.policies
    requires a' == a.(attestations := InvalidateAttestations(a, Some(row.engagement)).attestations[t := row])
    ensures RowsAdded(a, a') && NewRowsSound(a, a')
  {
  }

  lemma AttestLinks(a: Authority, a': Authority, t: nat, row: Attestation)
    requires Linked(a) && row.engagement in a.engagements && row.policy in a.policies
    requires a' == a.(attestations := InvalidateAttestations(a, Some(row.engagement)).attestations[t := row])
    ensures Linked(a')
  {
  }

  lemma AttestGrows(a: Authority, a': Authority, t: nat, row: Attestation)
    requires AuthorityInv(a) && t !in a.attestations && InForce(a, row.engagement, row.policy) && row.policy in a.policies
    requires a' == a.(attestations := InvalidateAttestations(a, Some(row.engagement)).attestations[t := row])
    ensures Grows(a, a')
  {
    AttestAdds(a, a', t, row);
    AttestLinks(a, a', t, row);
    AddedGrows(a, a');
  }

  lemma AuthorizeAdds(a: Authority, a': Authority, d: nat, destination: Destination)
    requires Linked(a) && d !in a.destinations && destination.grant in a.grants && destination.attestation in a.attestations
    requires a' == a.(destinations := a.destinations[d := destination])
    ensures RowsAdded(a, a') && NewRowsSound(a, a')
  {
  }

  lemma AuthorizeLinks(a: Authority, a': Authority, d: nat, destination: Destination)
    requires Linked(a) && destination.grant in a.grants && destination.attestation in a.attestations
    requires a' == a.(destinations := a.destinations[d := destination])
    ensures Linked(a')
  {
  }

  lemma AuthorizeGrows(a: Authority, a': Authority, d: nat, destination: Destination)
    requires AuthorityInv(a) && d !in a.destinations && destination.grant in a.grants && destination.attestation in a.attestations
    requires a' == a.(destinations := a.destinations[d := destination])
    ensures Grows(a, a')
  {
    AuthorizeAdds(a, a', d, destination);
    AuthorizeLinks(a, a', d, destination);
    AddedGrows(a, a');
  }

  lemma ResumeAdds(a: Authority, a': Authority, e: nat)
    requires Linked(a) && e in a.engagements
    requires a' == a.(engagements := a.engagements[e := a.engagements[e].(status := Active)])
    ensures RowsAdded(a, a') && NewRowsSound(a, a') && Linked(a')
  {
  }

  lemma ResumeGrows(a: Authority, a': Authority, e: nat)
    requires AuthorityInv(a) && e in a.engagements
    requires a' == a.(engagements := a.engagements[e := a.engagements[e].(status := Active)])
    ensures Grows(a, a')
  {
    ResumeAdds(a, a', e);
    AddedGrows(a, a');
  }

  lemma UnpauseAdds(a: Authority, a': Authority)
    requires Linked(a) && a' == a.(global := GlobalActive)
    ensures RowsAdded(a, a') && NewRowsSound(a, a') && Linked(a')
  {
  }

  lemma UnpauseGrows(a: Authority, a': Authority)
    requires AuthorityInv(a) && a' == a.(global := GlobalActive)
    ensures Grows(a, a')
  {
    UnpauseAdds(a, a');
    AddedGrows(a, a');
  }

  // ---- Agreement of the two halves ----

  lemma RowGrows(a: Authority, a': Authority, g: Gateway, k: nat)
    requires Shaped(g) && k in g.sessions && RowAgrees(a, g, k) && Extends(a, a')
    requires g.sessions[k].status == Prepared ==> InForce(a', g.reservations[k].engagement, g.reservations[k].policy)
    ensures RowAgrees(a', g, k)
  {
    var r := g.reservations[k];
    assert GrantAges(a.grants[r.grant], a'.grants[r.grant]);
    assert PolicyAges(a.policies[r.policy], a'.policies[r.policy]);
  }

  lemma LabelsGrow(a: Authority, a': Authority, g: Gateway)
    requires LabelsAgree(a, g) && Extends(a, a')
    ensures LabelsAgree(a', g)
  {
    forall id | id in g.buckets
      ensures LabelAgrees(a', g, id)
    {
      assert LabelAgrees(a, g, id);
      assert PolicyAges(a.policies[g.buckets[id].policy], a'.policies[g.buckets[id].policy]);
    }
  }

  lemma AgreeGrows(a: Authority, a': Authority, g: Gateway)
    requires Agree(a, g) && Extends(a, a') && ForceGrows(a, a')
    ensures Agree(a', g)
  {
    LabelsGrow(a, a', g);
    forall k | k in g.sessions
      ensures RowAgrees(a', g, k)
    {
      assert RowAgrees(a, g, k);
      assert InForce(a, g.reservations[k].engagement, g.reservations[k].policy) ==>
             InForce(a', g.reservations[k].engagement, g.reservations[k].policy);
      RowGrows(a, a', g, k);
    }
    RowsJoin(a', g);
  }

  /** A sweep leaves identities, start times and whatever is out of scope alone. */
  lemma SweptIdentities(g: Gateway, g': Gateway, scope: Option<nat>, now: int, k: nat)
    requires Shaped(g) && k in g.sessions && g' == Swept(g, scope, now) && Shaped(g')
    ensures k in g'.sessions && (k in g'.starts <==> k in g.starts)
    ensures g'.reservations[k].engagement == g.reservations[k].engagement && g'.reservations[k].policy == g.reservations[k].policy
    ensures g'.reservations[k].grant == g.reservations[k].grant && g'.sessions[k].attestation == g.sessions[k].attestation
    ensures k in g.starts ==> g'.starts[k].committedAt == g.starts[k].committedAt && g'.starts[k].deadline == g.starts[k].deadline
    ensures g'.sessions[k].status == Prepared ==> g.sessions[k].status == Prepared && !InScope(scope, g.reservations[k].engagement)
  {
  }

  lemma SweptLabels(a: Authority, g: Gateway, g': Gateway, scope: Option<nat>, now: int)
    requires Shaped(g) && LabelsAgree(a, g) && g' == Swept(g, scope, now)
    ensures LabelsAgree(a, g')
  {
    forall id | id in g'.buckets
      ensures LabelAgrees(a, g', id)
    {
      assert LabelAgrees(a, g, id);
    }
  }

  lemma RowSwept(a: Authority, a': Authority, g: Gateway, g': Gateway, scope: Option<nat>, now: int, k: nat)
    requires Shaped(g) && k in g.sessions && RowAgrees(a, g, k) && Extends(a, a') && ForceKept(a, a', scope)
    requires g' == Swept(g, scope, now) && Shaped(g') && k in g'.sessions
    ensures RowAgrees(a', g', k)
  {
    var r := g.reservations[k];
    SweptIdentities(g, g', scope, now, k);
    assert g'.sessions[k].status == Prepared ==> InForce(a', r.engagement, r.policy);
    assert GrantAges(a.grants[r.grant], a'.grants[r.grant]);
    assert PolicyAges(a.policies[r.policy], a'.policies[r.policy]);
  }

  /** The sweep of a scope makes up for whatever went out of force there. */
  lemma AgreeSwept(a: Authority, a': Authority, g: Gateway, g': Gateway, scope: Option<nat>, now: int)
    requires Agree(a, g) && Extends(a, a') && ForceKept(a, a', scope)
    requires g' == Swept(g, scope, now) && Shaped(g')
    ensures Agree(a', g')
  {
    LabelsGrow(a, a', g);
    SweptLabels(a', g, g', scope, now);
    forall k | k in g'.sessions
      ensures RowAgrees(a', g', k)
    {
      SweptMember(g, g', scope, now, k);
      assert RowAgrees(a, g, k);
      RowSwept(a, a', g, g', scope, now, k);
    }
    RowsJoin(a', g');
  }

  lemma HaltKeeps(db: Database, a': Authority, scope: Option<nat>, now: int)
    requires Inv(db)
    requires AuthorityInv(a') && Extends(db.authority, a') && ForceKept(db.authority, a', scope)
    ensures WithSweep(a', db.gateway, scope, now) == Ok(Database(a', Swept(db.gateway, scope, now)))
    ensures Inv(Database(a', Swept(db.gateway, scope, now)))
  {
    SweepKeepsInvariant(db.gateway, scope, now);
    AgreeSwept(db.authority, a', db.gateway, Swept(db.gateway, scope, now), scope, now);
  }
}
