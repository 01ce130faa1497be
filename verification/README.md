# Authorization core: a verified model

This project models the parts of the penetration-testing workbench that decide what may be sent,
when, and how often, and proves what those parts promise over whole runs. It is pure Dafny; `dafny
verify dfyconfig.toml` checks all of it.

**Authority and gateway tables** (`AuthorityModel`, `GatewayInvariant`, `AuthorityInvariant`,
`AuthorityRuns`, `AuthorityTheorems`, `AuthorityMeaning`, `AuthorityRefusals`, `SafetyMeaning`, `AuthorityWitness`,
`TokenLevels`, `RateTheorem`, `GatewayHistory`, `GatewaySweep`, `AuthorizationService`,
`TestingSchedule`, `ResponseAccounting`).
Engagements, policies, grants, attestations, budget accounts, rate buckets, reservations, sessions,
request starts, fixture claims and results are maps; each operation is a transaction that either
yields new tables or an error and no change, as `services/core/src/pentai_core/database.py` rolls
back. The CHECK and UNIQUE constraints of `migrations/` are part of the model: a counter that would
become negative, a bucket below zero tokens or a repeated key is refused with an integrity error.
`AuthorizationService` is the service object: its methods change the tables statement by statement,
and the abort sweep runs its three passes and loops as the code does; each is proved equal to the
transaction it implements. `AuthorityMeaning` and `SafetyMeaning` say when each operation succeeds and
what every row looks like afterwards, in terms of sessions, live grants and token levels;
`AuthorityRefusals` says what each error code tells the caller. One invariant is kept by every operation
in every order, and the theorems about conservation, quiescence, single use, rate and schedule follow from it.
Rows that carry the same unique reservation id share that id as their key. Instants are
microseconds, rates and tokens are reals. Signatures, schema contracts, content hashes and
provenance enter an operation as the flag `trusted` (or `current`, `contained`), which is arbitrary.

**AI budget ledger** (`MapSum`, `AiBudget`, `AiBudgetMeaning`, `AiBudgetRecovery`,
`AiBudgetTheorems`, `AiBudgetLedger`). A versioned, idempotent reservation ledger over five dimensions, and its recovery
from a snapshot. The request fingerprint is the request without its expected version; its hash is
taken to be injective. Identifiers are numbers in the order their text sorts.

**Policy compiler and evaluator** (`PolicyRules`, `PolicyMatching`, `PolicyTheorems`). Stable rule identifiers are
taken to be injective; they are sorted through an arbitrary injective numbering.

**Path canonicalization** (`PercentEncoding`, `CanonicalPath`). Characters are Unicode scalar
values; POSIX `normpath`, URL quoting and UTF-8 are written out.

**Controlled DNS** (`DnsName`, `DnsQuery`, `DnsResponse`, `DnsRoundTrip`, `DnsTheorems`, `DnsResolver`). Packets are
byte sequences (section 4.1 of RFC 1035); domain canonicalization is an arbitrary function.

**Supporting cores** (`AuditLog`, `BoundedReader`, `Backup`, `BackupOverlap`).

Where the code and a reader's expectation differ, the code is modelled and the exact condition is
proved:

- A rate bucket accepts a request at `1 - 1e-9` tokens, but the stored value would then be negative
  and the CHECK constraint refuses it; the proved bound is therefore `burst + rate * elapsed`
  without the tolerance, and tokens stay in `[0, burst]`.
- The number the abort sweep returns counts starts still labelled `committed` although their
  session has closed; it is the number of aborted sessions exactly when there is no such start
  (`GatewaySweep.SweepCountExact`), and a run in which it is not is given
  (`AuthorityWitness.MiscountedSweep`).
- A schedule deadline is not always sound: a clock set back can close the window before it
  (`SetBackClosesWindow`) or leave it open (`SetBackKeepsWindow`). It is sound if and only if the
  schedule is still open until the deadline at each change of offset on the way (`DeadlineSoundIff`).
- A ledger version advanced by a reservation that the record contract refuses is not recovered
  (`VersionReproduced`, `RefusedRecordLeavesGap`); a record written past the largest storable
  version, or finalized by a clock that had gone back before its creation, makes recovery fail
  (`SnapshotRecoverable`, `SetBackReleaseBlocksRecovery`).
- Whether `PORT_DENIED` or `PATH_DENIED` is reported can depend on the order of rules; exactly when
  is `ReasonIgnoresOrderIff`. Whether a target is allowed never does.
- Audit verification accepts a log cut short at its end (`CutLogAccepted`); a known head hash
  excludes it (`AcceptedHeadFixesHistory`).
- A purge that stopped before the unlink can never be completed (`StoppedPurgeKeepsFile`).
- The guard of the last verified backup does not hold against purges that overlap in time
  (`OverlapLosesBoth`); exactly when it fails is `AskDoomsIff` and `LostIffDoomed`.

## Model

| member | source | states |
|---|---|---|
| `TestingSchedule.WindowEnd` | packages/policy/src/pentai_policy/evaluator.py:63-80 | The loop over both folds yields the earliest instant ahead at which the open window's end is really shown by the zone's clock. |
| `TestingSchedule.NextBlackoutStart` | packages/policy/src/pentai_policy/evaluator.py:85-91 | The first loop reports a blackout exactly when the instant lies in one, and otherwise the start of the next. |
| `TestingSchedule.LatestWindowEnd` | packages/policy/src/pentai_policy/evaluator.py:92-99 | The second loop gives up exactly when a zone is unknown, and otherwise yields the latest end of an open window, which lies ahead. |
| `TestingSchedule.TestingScheduleDeadline` | packages/policy/src/pentai_policy/evaluator.py:83-104 | The two loops yield the latest open window's end cut at the next blackout, nothing inside a blackout or with an unknown zone; the deadline lies ahead. |
| `TestingSchedule.LatestEndAttained` | packages/policy/src/pentai_policy/evaluator.py:92-99 | The latest end is some window's end and no window ends later. |
| `TestingSchedule.NextBlackoutBounds` | packages/policy/src/pentai_policy/evaluator.py:85-101 | The next blackout start is ahead, is a blackout's start, and no blackout starts between. |
| `TestingSchedule.WeekDays` | packages/policy/src/pentai_policy/evaluator.py:63-80 | Days are counted from a Thursday; the weekday advances by one each local day and is the same throughout it. |
| `TestingSchedule.WindowMeaning` | packages/policy/src/pentai_policy/evaluator.py:63-80 | A window is open on its weekdays from its first minute of the local day up to, and not including, its last. |
| `TestingSchedule.EndMeaning` | packages/policy/src/pentai_policy/evaluator.py:63-80 | The end of an open window is the next instant at which the zone's clock shows it. |
| `TestingSchedule.DeadlineMeaning` | packages/policy/src/pentai_policy/evaluator.py:83-104 | There is a deadline exactly outside every blackout with all zones known and some window open; it is the latest end of an open window or the start of the first blackout before that. |
| `TestingSchedule.WindowStaysOpen` | packages/policy/src/pentai_policy/evaluator.py:63-80 | As long as the offset stays the same, an open window keeps its end at every later instant before it. |
| `TestingSchedule.DeadlineSoundIff` | packages/policy/src/pentai_policy/evaluator.py:83-108 | A schedule that admits t until d admits every instant of [t, d) until at least d if and only if it does so at each instant in between at which one of its zones changes its offset. |
| `TestingSchedule.DeadlineSound` | packages/policy/src/pentai_policy/evaluator.py:83-108 | If the schedule gives deadline d at t and no zone changes its offset on the way, every instant in [t, d) is allowed with a deadline of at least d. |
| `TestingSchedule.SetBackClosesWindow` | packages/policy/src/pentai_policy/evaluator.py:63-80 | The condition can fail: a clock set back closes an open window before its deadline. |
| `TestingSchedule.SetBackKeepsWindow` | packages/policy/src/pentai_policy/evaluator.py:63-80 | The condition can hold across a change of offset: a wider window stays open through the same change. |
| `GatewayInvariant.SweepSucceeds` | services/core/src/pentai_core/authorization.py:261-440 | In every state that satisfies the invariant the abort sweep succeeds: no bucket is missing or of another policy, no counter becomes negative. |
| `GatewayInvariant.SweepKeepsInvariant` | services/core/src/pentai_core/authorization.py:261-440 | The sweep keeps row consistency, ledger balance, bucket bounds and the backing of every held token. |
| `AuthorityRuns.PrepareStep` | services/core/src/pentai_core/authorization.py:3060-3293 | Preparing a session keeps the whole invariant, even though the account takes over a new policy's limits. |
| `AuthorityRuns.CommitStep` | services/core/src/pentai_core/authorization.py:2513-2710 | Starting a request keeps the invariant: one reserved request becomes a committed one, the grant is used up, the start fits the schedule. |
| `AuthorityRuns.FinalizeStep` | services/core/src/pentai_core/authorization.py:3295-3565 | Finalizing closes the session, frees one connection and keeps the invariant while the start stays labelled committed. |
| `AuthorityRuns.ClaimStep` | services/core/src/pentai_core/authorization.py:3606-3755 | A fixture claim is only made on an open started session, and the invariant is kept. |
| `AuthorityRuns.AbortStep` | services/core/src/pentai_core/authorization.py:3763-3830 | A single abort keeps the whole invariant. |
| `AuthorityMeaning.AbortMeaning` | services/core/src/pentai_core/authorization.py:3763-3830 | Aborting succeeds exactly for a waiting session with a reason; request and connection are given back, both its buckets get one token back up to their capacity, and no other row, account or bucket changes. |
| `AuthorityRefusals.AbortRefused` | services/core/src/pentai_core/authorization.py:3763-3830 | A refused abort means what its code says: no reason, no session, a session already over, or a request already started; never a bucket or account in disorder. |
| `AuthorityRuns.StepKeepsInvariant` | services/core/src/pentai_core/authorization.py:1359-4061 | Every operation, refused or not, keeps the invariant; engagements, policies, grants and attestations are never deleted, their identities never change, use and revocation are permanent. |
| `AuthorityTheorems.LedgerConservation` | services/core/src/pentai_core/authorization.py:3155-3187 | In every reachable state, per engagement: reserved equals the prepared sessions without a start, active the prepared sessions, committed the starts on record, all within the limits; without an account there are none. |
| `GatewayHistory.StepPersists` | services/core/src/pentai_core/authorization.py:1359-4061 | No operation deletes a reservation, session, start, claim or result or rewrites what it was made of; closed and aborted are final; only a start adds a start. |
| `GatewayHistory.RowsPersist` | services/core/src/pentai_core/authorization.py:1359-4061 | Over every run the rows of every session persist in this sense. |
| `GatewayHistory.CommittedCountsStarts` | services/core/src/pentai_core/authorization.py:2629-2674 | Over every run from the empty database the committed counter of an engagement is the number of requests ever started for it. |
| `AuthorityTheorems.StopNeverBlocked` | services/core/src/pentai_core/authorization.py:3832-3955 | In every reachable state pause, stop and recovery succeed, and revocation succeeds exactly for a known policy that version 2 lifecycle rules admit. |
| `AuthorityTheorems.RateStateNeverInvalid` | services/core/src/pentai_core/authorization.py:227-236 | `RATE_STATE_INVALID` and integrity failures are unreachable for activation; a session can be aborted exactly when it is prepared and not started. |
| `AuthorityRefusals.ActivateRefused` | services/core/src/pentai_core/authorization.py:1359-1653 | A refused activation means what its code says, and none of the codes is about the sweep it runs. |
| `AuthorityTheorems.Quiescence` | services/core/src/pentai_core/authorization.py:3832-4061 | While anything is globally or per engagement not active, that engagement has no live grant, valid attestation, open session or pending claim. |
| `AuthorityTheorems.LiveGrantBinding` | services/core/src/pentai_core/authorization.py:1931-2090 | A live grant is bound to its engagement's active policy and current epoch, and that policy is the engagement's only activated and unrevoked one. |
| `AuthorityTheorems.OneSessionPerGrant` | services/core/src/pentai_core/authorization.py:3090-3095 | A grant backs at most one reservation, session, start and result. |
| `AuthorityTheorems.SpendingNeedsLife` | services/core/src/pentai_core/authorization.py:2154-2179 | Consuming or starting needs an unused, unrevoked grant and leaves it used. |
| `AuthorityTheorems.DeadStaysDead` | services/core/src/pentai_core/authorization.py:2154-2179 | A used or revoked grant is never spent in any later run, resume included. |
| `AuthorityTheorems.SingleUse` | services/core/src/pentai_core/authorization.py:2171-2179 | Over every run a grant is spent at most once, by the direct and the gateway path together. |
| `AuthorityTheorems.PauseIsFinal` | services/core/src/pentai_core/authorization.py:3957-4061 | After an assessment pause none of its grants is ever spent again. |
| `AuthorityTheorems.HaltIsFinal` | services/core/src/pentai_core/authorization.py:3893-3955 | After a global pause or stop no existing grant is ever spent again. |
| `AuthorityTheorems.RestartIsFinal` | services/core/src/pentai_core/authorization.py:3832-3891 | After a service restart no existing grant is ever spent again. |
| `AuthorityTheorems.RequestInsideSchedule` | services/core/src/pentai_core/authorization.py:2565-2626 | The whole window of every started request lies inside its policy's testing schedule, until its deadline, if and only if it does at the instants inside at which a zone changes its offset. |
| `AuthorityWitness.SessionReachable` | services/core/src/pentai_core/authorization.py:3060-3293 | A concrete run reaches an open session with both buckets drained: the theorems about reachable states are not empty. |
| `AuthorityWitness.StartReachable` | services/core/src/pentai_core/authorization.py:2513-2710 | From there the run starts the request and spends its grant. |
| `AuthorityWitness.FinishReachable` | services/core/src/pentai_core/authorization.py:3295-3565 | And finishes it, leaving no session open. |
| `AuthorityWitness.MiscountedSweep` | services/core/src/pentai_core/authorization.py:308-316 | In that reachable state the sweep of a pause aborts no session and returns 1. |
| `RateTheorem.PreparedBucket` | services/core/src/pentai_core/authorization.py:3190-3207 | Preparing debits both buckets of the request by one after refilling and no other bucket. |
| `TokenLevels.RefillPerSecond` | services/core/src/pentai_core/authorization.py:186-187 | Rates are tokens per second. |
| `TokenLevels.RefundMeaning` | services/core/src/pentai_core/authorization.py:237-250 | After n tokens are handed back a bucket holds, at every later time, n more than it would have, up to its capacity; its own time becomes the later of the two; with none it is untouched. |
| `RateTheorem.EvolvesOwn` | services/core/src/pentai_core/authorization.py:180-250 | A reservation or release moves a bucket's own time forward only, and raises tokens out plus tokens in by at most the refill. |
| `RateTheorem.StepChanges` | services/core/src/pentai_core/authorization.py:163-258 | Every operation takes one token of a bucket after refilling it, hands tokens back to it, or leaves it alone; only an accepted reservation takes. |
| `RateTheorem.RateBound` | services/core/src/pentai_core/authorization.py:180-250 | Under one policy, between any two points of any run, tokens taken minus tokens returned are at most burst + rate * the time that passed on the bucket, whose time never goes back, and tokens stay in [0, burst]; nothing is assumed of the clock. |
| `RateTheorem.RateBoundBetween` | services/core/src/pentai_core/authorization.py:180-250 | When the accepted reservations read the clock within [from, to], in any order and whatever other operations read, the difference is at most burst + rate * (to - from). |
| `GatewaySweep.SubtractGroups` | services/core/src/pentai_core/authorization.py:287-307 | The loop over grouped rows subtracts each group from its account and fails exactly when a counter would become negative. |
| `GatewaySweep.CancelStarts` | services/core/src/pentai_core/authorization.py:265-351 | The first pass abandons claims, frees running connections, relabels committed starts and aborts their sessions; it reports how many starts it relabelled. |
| `GatewaySweep.ReleaseRateReservation` | services/core/src/pentai_core/authorization.py:215-258 | One release gives exactly the two buckets of its request one token back each, capped and never moving time back, or fails exactly when one is missing or of another policy. |
| `GatewaySweep.ReleaseHolds` | services/core/src/pentai_core/authorization.py:352-370 | Releasing held reservations one by one, in any order, gives each bucket back as many tokens as holds on it were released. |
| `GatewaySweep.ReleaseWaiting` | services/core/src/pentai_core/authorization.py:371-440 | The third pass frees waiting requests and connections, releases reservations and aborts what is still prepared. |
| `GatewaySweep.PassesCompose` | services/core/src/pentai_core/authorization.py:261-440 | The three passes together equal the closed form of the sweep. |
| `GatewaySweep.AbortGatewaySessions` | services/core/src/pentai_core/authorization.py:261-440 | The sweep as coded fails exactly when the closed form does, otherwise computes it, gives every bucket back the tokens held by idle sessions in scope, and returns committed starts plus idle sessions. |
| `GatewaySweep.SweepCountExact` | services/core/src/pentai_core/authorization.py:308-316 | The returned number is never below the sessions aborted, and equals it exactly when no finished start is still labelled committed. |
| `AuthorityMeaning.ReserveMeaning` | services/core/src/pentai_core/authorization.py:163-212 | A reservation succeeds exactly when the clock has not gone back and a token is there; the level falls by exactly one, tokens stay in [0, burst - 1], no other bucket changes. |
| `AuthorizationServices.ReserveRateBucket` | services/core/src/pentai_core/authorization.py:163-212 | On a bucket that carries its policy's limits: succeeds exactly when a token is there on a clock that has not gone back, lowers the level by exactly one and touches no other bucket. |
| `AuthorityMeaning.TakeMeaning` | services/core/src/pentai_core/authorization.py:3190-3207 | Engagement bucket and host bucket both pay one token, exactly when both can, or neither is touched. |
| `AuthorityRefusals.TakeRefused` | services/core/src/pentai_core/authorization.py:163-212 | A refused pair of tokens names a bucket that really lacks one, or whose time lies ahead of the clock. |
| `AuthorizationServices.ReserveRates` | services/core/src/pentai_core/authorization.py:3190-3207 | Both buckets of a request pay one token each, exactly when both can; otherwise nothing changes. |
| `AuthorityMeaning.PrepareMeaning` | services/core/src/pentai_core/authorization.py:3060-3293 | In every state of the invariant preparation succeeds exactly for a live grant in its time window with an allowed destination, a valid attestation, room counted in sessions and starts, and tokens in both buckets; it opens one waiting session bound to grant, policy and attestation with the smaller response limit, applies the policy's limits, and changes no other row or account. |
| `AuthorityRefusals.PrepareRefused` | services/core/src/pentai_core/authorization.py:3060-3293 | A refused preparation means what its code says: authority missing, the grant already has a session, the counted sessions fill the limits, or one of the two buckets lacks a token or saw a later time. |
| `AuthorizationServices.AuthorizationService.PrepareGatewaySession` | services/core/src/pentai_core/authorization.py:3060-3293 | Under the invariant: one more waiting session with both buckets debited, exactly when that is possible, or nothing. |
| `AuthorityMeaning.BeginMeaning` | services/core/src/pentai_core/authorization.py:2513-2710 | Starting succeeds exactly for a waiting session with a live grant and a valid attestation, a positive timeout, before the expiry of grant, engagement and attestation, with the schedule open; the session moves from waiting to begun and stays open, its grant is spent, and its deadline is the least of now plus timeout, those expiries and the schedule's deadline. |
| `AuthorityRefusals.CommitRefused` | services/core/src/pentai_core/authorization.py:2513-2710 | A start is refused as replayed exactly when it was made before, and otherwise as denied; no other code occurs. |
| `AuthorizationServices.AuthorizationService.CommitGatewayRequestStart` | services/core/src/pentai_core/authorization.py:2513-2710 | Under the invariant: begins that one request, with the least of its limits as deadline, exactly when it may, or leaves no trace, even when refused after the grant update. |
| `AuthorityMeaning.FinishMeaning` | services/core/src/pentai_core/authorization.py:3295-3565 | Finalizing succeeds exactly for an open, started session, the right claim and an accepted report; the session closes with its result, its claim is completed and its start stays as it was. |
| `AuthorityRefusals.FinalizeRefused` | services/core/src/pentai_core/authorization.py:3295-3565 | A report that is due is refused only for the clock or for a measurement outside the table of accepted ones; any other refusal names the missing request, the earlier result, the wrong claim or the closed session. |
| `AuthorizationServices.AuthorizationService.FinalizeGatewayRequest` | services/core/src/pentai_core/authorization.py:3295-3565 | Under the invariant: closes that one session with its result exactly when it may, or nothing. |
| `AuthorityMeaning.ClaimMeaning` | services/core/src/pentai_core/authorization.py:3606-3755 | Claiming succeeds exactly for an open, started, unclaimed request in time with an unrevoked grant, and adds that claim alone. |
| `AuthorizationServices.AuthorizationService.ClaimGatewayFixture` | services/core/src/pentai_core/authorization.py:3606-3755 | Under the invariant: adds the claim exactly when it may, or nothing. |
| `AuthorizationServices.AuthorizationService.AbortGatewaySession` | services/core/src/pentai_core/authorization.py:3763-3830 | Under the invariant: aborts exactly a waiting session and gives back all that its preparation took. |
| `AuthorityMeaning.MintMeaning` | services/core/src/pentai_core/authorization.py:1931-2090 | Minting succeeds exactly for an allowed decision under the policy in force that has not ended; a decision has one grant at most; a new one is live, bound to policy and epoch, ends at the least of 30 seconds on, intent and policy, and takes the lesser of requested and allowed timeout and response size. |
| `AuthorityRefusals.MintRefused` | services/core/src/pentai_core/authorization.py:1931-2090 | A refused grant names its reason: unknown or disallowed decision, policy not in force, time over, or an intent that already has a grant. |
| `AuthorizationServices.AuthorizationService.MintActionGrant` | services/core/src/pentai_core/authorization.py:1931-2090 | Under the invariant: the decision's existing grant is kept or one such grant is added, exactly when that is allowed. |
| `AuthorityMeaning.ConsumeMeaning` | services/core/src/pentai_core/authorization.py:2092-2200 | Consuming succeeds exactly for a live grant of that audience in its time window; that policy, epoch and safety are in force then follows; only its used flag changes. |
| `AuthorityRefusals.ConsumeRefused` | services/core/src/pentai_core/authorization.py:2092-2200 | A refused consumption names its reason; that a live grant's policy, epoch or safety state is out of date never is one. |
| `SafetyMeaning.EvaluateMeaning` | services/core/src/pentai_core/authorization.py:1802-1929 | A verdict is stored exactly under a version 1 policy in force, bound to it; an earlier decision is kept. |
| `SafetyMeaning.AttestMeaning` | services/core/src/pentai_core/authorization.py:2217-2303 | An attestation is recorded exactly while a policy is in force; it is the engagement's only valid one and bound to that policy. |
| `SafetyMeaning.AuthorizeMeaning` | services/core/src/pentai_core/authorization.py:2920-3058 | A destination is recorded exactly for a live gateway grant in its window and a valid attestation of the same engagement and policy. |
| `SafetyMeaning.CreateMeaning` | services/core/src/pentai_core/authorization.py:514-547 | A new engagement is a draft without a policy at epoch 0. |
| `SafetyMeaning.CompileMeaning` | services/core/src/pentai_core/authorization.py:1021-1134 | A compiled policy is stored for a known engagement, neither activated nor revoked. |
| `AuthorizationServices.AuthorizationService.ConsumeActionGrant` | services/core/src/pentai_core/authorization.py:2092-2200 | Under the invariant: spends exactly a live grant in its window and changes nothing else. |
| `SafetyMeaning.GlobalMeaning` | services/core/src/pentai_core/authorization.py:3893-3955 | A global change succeeds exactly with a reason. A halt sets the requested state, pauses every active engagement at the next epoch and changes no other, revokes every unused grant, voids every attestation, ends every session and returns every held token; lifting it changes the global state alone. |
| `SafetyMeaning.SweepQuiets` | services/core/src/pentai_core/authorization.py:261-440 | After a sweep every session in scope is over, its account is clear of reservations and connections, the tokens it held are back, and nothing out of scope has changed. |
| `AuthorizationServices.AuthorizationService.SetGlobal` | services/core/src/pentai_core/authorization.py:3893-3955 | Under the invariant: exactly that, whenever a reason is given. |
| `SafetyMeaning.RecoverMeaning` | services/core/src/pentai_core/authorization.py:3832-3891 | Startup always succeeds and leaves everything paused, with the same effect as a global pause. |
| `AuthorizationServices.AuthorizationService.Recover` | services/core/src/pentai_core/authorization.py:3832-3891 | Under the invariant: always succeeds and leaves everything paused. |
| `SafetyMeaning.PauseMeaning` | services/core/src/pentai_core/authorization.py:3957-4061 | Pausing succeeds exactly for a known engagement with a reason; that engagement is paused at the next epoch, its unused grants revoked, its attestations voided, its sessions ended, and no other engagement is touched. |
| `SafetyMeaning.ResumeMeaning` | services/core/src/pentai_core/authorization.py:3957-4061 | Resuming succeeds exactly with a reason while nothing is globally halted and the engagement's active policy has not ended; only the status changes. |
| `AuthorizationServices.AuthorizationService.PauseEngagement` | services/core/src/pentai_core/authorization.py:3957-4061 | Under the invariant: pauses exactly that engagement. |
| `SafetyMeaning.RevokeMeaning` | services/core/src/pentai_core/authorization.py:1655-1707 | Revoking succeeds exactly for a known policy with a reason, of version 2 only while live; the policy is revoked, its engagement withdrawn without a policy at the next epoch, and its grants, attestations and sessions end. |
| `AuthorizationServices.AuthorizationService.Revoke` | services/core/src/pentai_core/authorization.py:1655-1707 | Under the invariant: withdraws exactly that policy and engagement. |
| `SafetyMeaning.ActivateMeaning` | services/core/src/pentai_core/authorization.py:1359-1653 | Activation succeeds exactly for a new, supported, trusted policy, of version 2 only if current, with everything active and the engagement not held back; the engagement is then active under it, any live rival is revoked with its grants and the epoch moves on, and no other policy or engagement changes. |
| `AuthorizationServices.AuthorizationService.Activate` | services/core/src/pentai_core/authorization.py:1359-1653 | Retiring the one fetched rival equals retiring every live one; under the invariant the method has exactly that effect. |
| `AuthorizationServices.AuthorizationService.Execute` | services/core/src/pentai_core/database.py:51-63 | Any operation on the service object leaves the database the transaction gives, rolls back on refusal, and keeps the invariant. |
| `AiBudget.ReserveKeeps` | services/core/src/pentai_core/ai_budget.py:60-119 | Reserving at any time, accepted or refused, keeps the ledger invariant. |
| `AiBudget.FinalizeKeeps` | services/core/src/pentai_core/ai_budget.py:193-219 | Committing or releasing at any time, accepted or refused, keeps the ledger invariant. |
| `AiBudgetMeaning.ReserveMeaning` | services/core/src/pentai_core/ai_budget.py:60-119 | A reservation is made exactly for a new key at the current version under a valid configuration of the same reference, asked for within the last minute for at most five minutes, for a positive amount that fits every ceiling; then one reserved record is added and usage rises by its amounts. A known key answers with its record or is refused. |
| `AiBudgetMeaning.FinalizeMeaning` | services/core/src/pentai_core/ai_budget.py:193-219 | A commit commits and a release releases, exactly when the record is reserved, the version current, the configuration valid and a commit in time; only a release lowers usage, by exactly the amounts; asking again changes nothing. |
| `AiBudgetMeaning.FingerprintMeaning` | services/core/src/pentai_core/ai_budget.py:258-262 | Two requests have one fingerprint exactly when they differ in the expected version at most. |
| `AiBudgetRecovery.AddAmounts` | services/core/src/pentai_core/ai_budget.py:168-176 | Field by field addition succeeds exactly when all five sums fit their ceilings. |
| `AiBudgetRecovery.Load` | services/core/src/pentai_core/ai_budget.py:153-183 | The first recovery loop succeeds exactly when the records are acceptable, distinct and affordable, whatever their order. |
| `AiBudgetRecovery.ReleaseExpired` | services/core/src/pentai_core/ai_budget.py:184-191 | The second loop releases the expired reservations in identifier order at the versions following the highest one. |
| `AiBudgetRecovery.Recover` | services/core/src/pentai_core/ai_budget.py:140-191 | Recovery succeeds exactly on recoverable records and yields the closed form: records, index, usage and version. |
| `AiBudgetTheorems.OrderIrrelevant` | services/core/src/pentai_core/ai_budget.py:140-191 | Permuting the records changes neither whether recovery succeeds nor the ledger it yields. |
| `AiBudgetTheorems.SnapshotRecoverable` | services/core/src/pentai_core/ai_budget.py:131-191 | A snapshot of any live ledger is recoverable exactly when the configuration is still valid, no record exceeds the largest storable version and none was finalized before it was created. |
| `AiBudgetTheorems.NeverBackdated` | services/core/src/pentai_core/ai_budget.py:131-191 | Over every run whose clock does not go back no record is finalized before it was created, so recovery fails for validity or the version range only. |
| `AiBudgetTheorems.SetBackReleaseBlocksRecovery` | services/core/src/pentai_core/ai_budget.py:230-249 | A release after the clock went back past the reservation's creation makes every later recovery fail. |
| `AiBudgetTheorems.RecoveryComputes` | services/core/src/pentai_core/ai_budget.py:140-191 | What recovery yields from a live ledger's records is one determined ledger. |
| `AiBudgetTheorems.RecoveryRefines` | services/core/src/pentai_core/ai_budget.py:131-191 | Recovered keys and idempotency are the live ones; unexpired records are unchanged, expired ones released at new versions; with none expired and the version in range the ledger is reproduced. |
| `AiBudgetTheorems.RecoveredUsage` | services/core/src/pentai_core/ai_budget.py:166-176 | Recovered usage is the live usage less exactly the expired amounts. |
| `AiBudgetTheorems.VersionReproduced` | services/core/src/pentai_core/ai_budget.py:181-191 | The recovered version is the live one plus the number of expired reservations exactly when the live version is storable. |
| `AiBudgetTheorems.RefusedRecordLeavesGap` | services/core/src/pentai_core/ai_budget.py:95-114 | A reservation refused by the record contract happens only at the last version, advances it, and recovery forgets that advance. |
| `AiBudgetTheorems.RecoveryKeeps` | services/core/src/pentai_core/ai_budget.py:140-191 | The recovered ledger satisfies the invariant. |
| `AiBudgetTheorems.LedgerSound` | services/core/src/pentai_core/ai_budget.py:60-219 | Over every run with restarts, whatever the clock does: usage per dimension is the sum over records not released and within its ceiling; record versions are distinct and at most the ledger's. |
| `AiBudgetTheorems.FinalForever` | services/core/src/pentai_core/ai_budget.py:193-219 | A committed or released record never changes again, across restarts. |
| `AiBudgetTheorems.KeyForever` | services/core/src/pentai_core/ai_budget.py:65-73 | An idempotency key stays bound to its request and reservation, across restarts. |
| `AiBudgetTheorems.ReplayChangesNothing` | services/core/src/pentai_core/ai_budget.py:65-73 | In any later state a replay with any expected version changes nothing and returns the same reservation; another request under the key is refused. |
| `AiBudgetLedgers.AIBudgetLedger.ReserveAmounts` | services/core/src/pentai_core/ai_budget.py:60-119 | The method on the fields makes exactly that reservation when it may, including the version advance before a refused record, and leaves a known key's ledger alone. |
| `AiBudgetLedgers.AIBudgetLedger.FinalizeReservation` | services/core/src/pentai_core/ai_budget.py:193-219 | The method on the fields gives the record the state asked for exactly when it may, lowers usage only on a release, and otherwise changes nothing. |
| `AiBudgetLedgers.AIBudgetLedger.Snapshot` | services/core/src/pentai_core/ai_budget.py:131-138 | The snapshot lists every record once, in identifier order. |
| `AiBudgetLedgers.Restart` | services/core/src/pentai_core/ai_budget.py:131-191 | Recovering a live ledger's snapshot succeeds exactly when it is recoverable, and yields a new ledger equal to the recovered one, with the invariant. |
| `PolicyRules.CompileManifest` | packages/policy/src/pentai_policy/compiler.py:22-90 | Compilation succeeds exactly without open questions and with an allow asset; the result holds each asset's base rule and one deny rule per denied path, no more, sorted by identifier. |
| `PolicyRules.AppendRules` | packages/policy/src/pentai_policy/compiler.py:32-90 | One turn of the loop adds exactly the rules of one asset. |
| `PolicyRules.SortKeeps` | packages/policy/src/pentai_policy/compiler.py:143-144 | Sorting by identifier keeps the rules and orders them. |
| `PolicyMatching.BelowMeaning` | packages/policy/src/pentai_policy/evaluator.py:50-55 | A wildcard admits exactly the names whose labels end in the base's labels with at least one before them, plus the base itself when the apex is included. |
| `PolicyMatching.PathMeaning` | packages/policy/src/pentai_policy/evaluator.py:29-31 | A path lies under a prefix exactly when the prefix's segments, trailing slashes aside, are its first segments. |
| `PolicyMatching.NetworkMeaning` | packages/policy/src/pentai_policy/evaluator.py:58-59 | An address lies in a network exactly when all bits above the host part agree. |
| `PolicyMatching.MatcherMeaning` | packages/policy/src/pentai_policy/evaluator.py:34-60 | Each matcher admits exactly the targets it names, in labels, segments and bits. |
| `PolicyMatching.SpecificityMeaning` | packages/policy/src/pentai_policy/compiler.py:33-57 | A URL outranks a domain, that an address, that a wildcard, that a network; within a kind the longer path, name or prefix does. |
| `PolicyTheorems.VerdictMeaning` | packages/policy/src/pentai_policy/evaluator.py:234-253 | Each verdict in terms of the matching rules of highest specificity, without lists or order. |
| `PolicyTheorems.CompiledDecision` | packages/policy/src/pentai_policy/evaluator.py:234-253 | A compiled policy allows a target exactly when the manifest authorizes it: some asset that names it is as specific as any, all equally specific ones grant it, and all denied paths it lies under rank below. |
| `PolicyTheorems.AllowedMeans` | packages/policy/src/pentai_policy/evaluator.py:34-60 | An allowed target is named by an allow asset, on a listed port, inside an allowed path if any, outside its denied paths, with no deny rule that concerns it of equal or higher specificity. |
| `PolicyTheorems.DenyAssetMonotone` | packages/policy/src/pentai_policy/compiler.py:58-90 | Adding an asset that does not allow, anywhere, never authorizes a target that was not. |
| `PolicyTheorems.DeniedPathMonotone` | packages/policy/src/pentai_policy/compiler.py:73-90 | Adding a denied path to any asset never authorizes a target that was not. |
| `PolicyTheorems.OutcomeIgnoresOrder` | packages/policy/src/pentai_policy/evaluator.py:234-253 | Whether a target is allowed depends only on which rules there are. |
| `PolicyTheorems.ReasonIgnoresOrderIff` | packages/policy/src/pentai_policy/evaluator.py:243-253 | The reason is the same under every order of the rules exactly when the top rules do not fail in both port and path. |
| `PolicyTheorems.AssetOrderIrrelevant` | packages/policy/src/pentai_policy/compiler.py:143-144 | Permuting the assets of a manifest with unique asset ids yields the same list of rules. |
| `PercentEncoding.NormalizePercentEncoding` | packages/policy/src/pentai_policy/canonicalize.py:110-128 | The index loop computes the token-wise normalization, with the same refusals. |
| `PercentEncoding.NormalizeIdempotent` | packages/policy/src/pentai_policy/canonicalize.py:110-128 | Percent normalization is idempotent, for paths and queries. |
| `PercentEncoding.NormalizePreservesText` | packages/policy/src/pentai_policy/canonicalize.py:110-128 | Percent normalization preserves the percent-decoded text. |
| `PercentEncoding.AcceptsIff` | packages/policy/src/pentai_policy/canonicalize.py:110-128 | Normalization refuses exactly the strings in which some percent sign does not start an escape or, in a path, escapes a separator or a percent sign. |
| `CanonicalPath.SettledForm` | packages/policy/src/pentai_policy/canonicalize.py:139-143 | Resolving a path leaves only ordinary segments, one leading slash, and the trailing slash it had. |
| `CanonicalPath.ResolveLaws` | packages/policy/src/pentai_policy/canonicalize.py:139-141 | Empty and `.` segments have no effect, `..` undoes the ordinary segment before it and has none at the root, ordinary segments stay. |
| `CanonicalPath.QuotePreservesText` | packages/policy/src/pentai_policy/canonicalize.py:144-144 | Quoting changes how a path's text is written, not the text. |
| `CanonicalPath.Utf8Meaning` | packages/policy/src/pentai_policy/canonicalize.py:144-144 | The octets quoted for a character are its shortest UTF-8 form. |
| `CanonicalPath.AcceptedIff` | packages/policy/src/pentai_policy/canonicalize.py:131-147 | A path is accepted exactly when it is absolute, well encoded and free of delimiters, backslashes and control characters. |
| `CanonicalPath.CanonicalResult` | packages/policy/src/pentai_policy/canonicalize.py:131-147 | Every returned path is canonical, and the final stability check can never fail. |
| `CanonicalPath.FixpointIffCanonical` | packages/policy/src/pentai_policy/canonicalize.py:131-147 | A path is returned unchanged exactly when it is canonical. |
| `CanonicalPath.CanonicalizeIdempotent` | packages/policy/src/pentai_policy/canonicalize.py:131-147 | Canonicalization is idempotent. |
| `CanonicalPath.CanonicalSegments` | packages/policy/src/pentai_policy/canonicalize.py:131-147 | A returned path has no empty interior segment, and no segment that is a dot segment or holds a separator or percent sign even after percent-decoding. |
| `DnsName.DecodeName` | services/core/src/pentai_core/controlled_dns_transport.py:284-324 | The decoding loop terminates on every packet, equals the run-by-run reading of a compressed name, and resumes after the start and inside the packet. |
| `DnsName.DecodeResumes` | services/core/src/pentai_core/controlled_dns_transport.py:284-324 | The resume offset lies in (start, length]. |
| `DnsRoundTrip.PointerRoundTrip` | services/core/src/pentai_core/controlled_dns_transport.py:294-304 | A pointer is read as the offset in its fourteen low bits. |
| `DnsRoundTrip.PointerRefused` | services/core/src/pentai_core/controlled_dns_transport.py:298-299 | A pointer out of the packet, to a place already visited or after sixteen others makes the name invalid. |
| `DnsRoundTrip.CompressedRoundTrip` | services/core/src/pentai_core/controlled_dns_transport.py:284-324 | A name that ends in a pointer is its own labels followed by those of the name pointed to; reading resumes after the pointer. |
| `DnsQuery.BuildQuery` | services/core/src/pentai_core/controlled_dns_transport.py:196-207 | A query is built exactly when every label is 1 to 63 ASCII bytes, and has the layout of header, labels, type and class. |
| `DnsQuery.QueryRoundTrip` | services/core/src/pentai_core/controlled_dns_transport.py:196-207 | Decoding a built query at offset 12 returns the canonical hostname and the offset of the type field; the header carries the identifier, asks for recursion and announces one question. |
| `DnsResponse.ParseRecords` | services/core/src/pentai_core/controlled_dns_transport.py:239-276 | The record loop, with its set of allowed names, equals the record-by-record specification. |
| `DnsResponse.ParseResponse` | services/core/src/pentai_core/controlled_dns_transport.py:210-281 | The parser accepts exactly the packets of the specification, with the same error codes. |
| `DnsRoundTrip.HeaderMeaning` | services/core/src/pentai_core/controlled_dns_transport.py:223-232 | A header fits exactly when it is that of a response to a standard query, not truncated, with the reserved bit clear, no error, one question and at most 64 records. |
| `DnsRoundTrip.RecordRoundTrip` | services/core/src/pentai_core/controlled_dns_transport.py:239-250 | A record is read back with the owner, type, class and data it was written with. |
| `DnsRoundTrip.ResponseRoundTrip` | services/core/src/pentai_core/controlled_dns_transport.py:210-281 | A response written with one address record for the question, its owner a pointer, is accepted and yields that address. |
| `DnsTheorems.AcceptedResponse` | services/core/src/pentai_core/controlled_dns_transport.py:210-281 | In an accepted packet the header is that of a good response, question and records tile bytes 12 to the end; names and addresses are those of the answers, addresses of the family's length; every name and owner is reachable from the hostname through accepted CNAMEs; names do not repeat and never are the hostname. |
| `DnsResolver.NextTransactionId` | services/core/src/pentai_core/controlled_dns_transport.py:164-171 | The first usable of four draws, never one already used. |
| `DnsResolver.Resolve` | services/core/src/pentai_core/controlled_dns_transport.py:130-162 | Resolution succeeds exactly when both families answer, under different identifiers, with the same CNAMEs, and returns both families' addresses in order. |
| `DnsResolver.ResolvedNamesReached` | services/core/src/pentai_core/controlled_dns_transport.py:130-162 | Both replies of a resolution establish the reachability of the names it returns. |
| `AuditLog.Log.Append` | services/core/src/pentai_core/audit.py:11-57 | Appends the next event chained to the last hash, unless a unique column repeats. |
| `AuditLog.Log.Verify` | services/core/src/pentai_core/authorization.py:4400-4441 | Verification reports valid with the head hash, or the first event that breaks its contract or the chain, and which of the two. |
| `AuditLog.AppendsChain` | services/core/src/pentai_core/audit.py:11-57 | Any sequence of appends yields a chained log. |
| `AuditLog.AppendedAcceptedIff` | services/core/src/pentai_core/authorization.py:4400-4441 | A log made only by appending is accepted exactly when every event in it meets the event contract, which appending does not check. |
| `AuditLog.HeadFixesHistory` | services/core/src/pentai_core/audit.py:21-57 | Under an injective hash two chained logs with the same head are identical. |
| `AuditLog.AcceptedHeadFixesHistory` | services/core/src/pentai_core/authorization.py:4400-4441 | Two accepted logs report the same head exactly when they are identical. |
| `AuditLog.CutLogAccepted` | services/core/src/pentai_core/authorization.py:4400-4441 | Every prefix of an accepted log is accepted. |
| `BoundedReader.ReadBody` | tools/network-probe/src/main.rs:334-381 | For every stream the loop ends, never asks for a negative amount, observes at most limit + 1 bytes and retains the observed ones up to the limit. |
| `BoundedReader.ReportSound` | tools/network-probe/src/main.rs:334-381 | More than the limit is reported exactly as limit + 1 bytes, and only as limit or deadline exceeded. |
| `BoundedReader.AcceptedIff` | services/core/src/pentai_core/authorization.py:3316-3394 | Every byte check of finalization passes for a sound report; acceptance depends on the completion time alone. |
| `ResponseAccounting.AcceptedMeaning` | services/core/src/pentai_core/authorization.py:3376-3394 | What finalization accepts, outcome by outcome, and that it refuses everything else. |
| `BoundedReader.ReaderAccepted` | tools/network-probe/src/main.rs:334-381 | Every report completed at or past the deadline exactly when it says so is accepted by finalization. |
| `BoundedReader.CompletedIff` | tools/network-probe/src/main.rs:363-381 | `completed` is reported exactly when the stream ended in time with the announced number of bytes seen, all within the limit. |
| `BoundedReader.OutcomeMeaning` | tools/network-probe/src/main.rs:334-381 | What made the loop stop, for each outcome it reports. |
| `BoundedReader.ObservedIsOffered` | tools/network-probe/src/main.rs:334-381 | The observed count is what the stream delivered, capped at limit + 1. |
| `Backup.SortNewest` | services/core/src/pentai_core/backup.py:201-203 | All backups, newest first by creation time and identifier. |
| `Backup.BackupService.RotationPlan` | services/core/src/pentai_core/backup.py:194-216 | The candidates are exactly the backups neither among the newest `retain_count` nor the newest restore-verified one, newest first. |
| `Backup.PurgeMeaning` | services/core/src/pentai_core/backup.py:231-295 | The named file vanishes exactly when the call is confirmed, new, matches the digest and does not name the last verified backup, and the unlink is reached; no other file does; the request is on record by then; a reported success is a recorded one. |
| `Backup.BackupService.PurgeBackup` | services/core/src/pentai_core/backup.py:231-295 | The purge has exactly that effect at every point where it may be cut short. |
| `Backup.DispositionForever` | services/core/src/pentai_core/backup.py:432-465 | Over every run the disposition first recorded for a purge is the one reported ever after. |
| `Backup.StepKeepsVerified` | services/core/src/pentai_core/backup.py:273-277 | No operation, interrupted or not, takes the restore-verified backups on disk from some to none. |
| `Backup.VerifiedNeverLost` | services/core/src/pentai_core/backup.py:273-277 | Over every run, once a restore-verified backup is on disk one always is. |
| `Backup.StoppedPurgeKeepsFile` | services/core/src/pentai_core/backup.py:252-264 | A backup whose purge stopped before the unlink is never removed by a later purge. |
| `Backup.RepeatCompletes` | services/core/src/pentai_core/backup.py:252-264 | Repeating a purge that stopped after the unlink completes it as already absent. |
| `Backup.PlanIsSafe` | services/core/src/pentai_core/backup.py:194-216 | Purging any selection of a plan's candidates in any order, none asked for before, never meets the last-verified guard and keeps every protected backup. |
| `Backup.CandidatesAreOld` | services/core/src/pentai_core/backup.py:194-216 | Every candidate of a plan has at least `retain_count` other backups no older than it. |
| `BackupOverlap.AskDoomsIff` | services/core/src/pentai_core/backup.py:273-295 | An admitted purge leaves no verified backup out of danger exactly when every other one on disk has a purge still to reach its unlink; then purges overlap. |
| `BackupOverlap.SerialPurgesKeepOne` | services/core/src/pentai_core/backup.py:273-295 | However purges, crashes, drills and new backups interleave, a verified backup is left if no purge of a verified one is admitted while another is between guard and unlink. |
| `BackupOverlap.LostIffDoomed` | services/core/src/pentai_core/backup.py:273-295 | The purges under way can lose the last verified backup exactly when every verified one on disk is among them. |
| `BackupOverlap.OverlapLosesBoth` | services/core/src/pentai_core/backup.py:273-295 | Two overlapping purges of the last two verified backups both pass the guard and lose both. |

## Left out

- Programs, imported sources, manifest validation and comparison, network profiles, the runtime lifecycle, evidence, reports and workflows: none of them takes part in granting, metering or recovering authority.
- Sockets, TLS, SQLite, the file system, AES-GCM, Ed25519 and SHA-256: foreign code, replaced by arbitrary or injective functions; identifiers and the clock are arguments.
- JSON schema contracts beyond the bounds the ledger relies on, IDNA, `urlsplit` and address parsing: the checks enter as arbitrary flags or functions.
- Audit events written by the authority operations: the log is modelled on its own and not joined to the tables.
- The storage safety stop in front of each operation, and what the evaluator checks before the assets (validity, accounts, capabilities, methods): a decision enters the authority tables as allowed or not.
- Floating point rounding of rates and tokens: reals are used.
- Lone surrogates in paths and labels: characters are Unicode scalar values.
- AiBudgetTheorems.LedgerSound: assumes that a drawn identifier is not already in use.
- AuthorizationServices.AuthorizationService.Execute: does not fix which of the two sweep errors is reported when a sweep fails, since in reachable states none does.
- GatewaySweep.AbortGatewaySessions: requires prepared sessions' starts to be labelled committed, which every reachable state satisfies.
- Request headers of the fixture client and its failures before the body: they report zero bytes.
