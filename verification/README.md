# Verified models of the guarded A2A dispatch, the audit chain and the Embassy machines

The plugin lets an agent call remote tools and models through a mesh, and lets remote peers ask a
local specialist. Its safety rests on a few small concurrent protocols; these Dafny modules model
them and prove what they keep over every run. `dafny verify dfyconfig.toml` checks everything.

| files | subject |
|---|---|
| `Domain`, `SetFacts` | scopes, configuration, lease bindings and sealed payloads; sizes of finite sets |
| `DecisionTables`, `Decisions`, `DecisionRuns`, `DecisionLedger` | the four tables of `DecisionStore` and its transactions; the class that updates them in place; what every run keeps; the answer to every call told by the committed calls before it |
| `LeaseTable`, `Leases`, `LeaseRuns`, `LeaseLedger` | the same for `LeaseStore` |
| `Dispatch`, `DispatchInvariant`, `DispatchSafety` | `DelegationGate`, `InferenceGate` and `GovernedNativeModel` as any number of workers over the decision, lease and audit stores, interleaved with the clock, operators, reconfiguration and crashes |
| `DispatchOutcomes`, `DispatchAudit`, `DispatchSlots`, `DispatchWitness` | what each step of a gate decides; what is stored of a dispatch; who holds a chat's slot, when it leaks, and what the steps of others leave alone; that an approved call does go through |
| `Gate` | `DelegationGate` itself, over the store classes: preflight, approval and invocation step by step with the flags the code keeps, each step the protocol event it is, with any steps of others in between |
| `AuditChain`, `AuditLog`, `AuditVerdict`, `AuditCache`, `Audit` | the hash-chained audit store: the pruned log against an unbounded one, tamper evidence, what validation means, the validation cache, the class |
| `OriginProofs`, `Origin` | `OriginVerifier`: freshness window and bounded replay table |
| `SessionTables`, `Sessions`, `SessionRuns`, `SessionSafety`, `SessionOutcomes`, `SessionWindow`, `SessionStale`, `SessionOverrun` | `SessionManager`: slots, session ownership, drains, what each step decides, the sliding rate window, and two interleavings that go wrong |
| `RegistryRuns`, `Registry`, `RegistrySafety`, `RegistryOutcomes` | `EmbassyRegistry`: start, close and close-all |
| `Sse`, `SseRoundTrip`, `SsePayloads` | the event-stream decoder of the MCP transport |
| `Probe`, `ProbeFragments`, `ProbeEvents` | the streaming inference probe: its loop, splittings of a response, and the report on a stream of events |

## How the code is modelled

* A store method is one serialised transaction and reads the clock once. A transaction that fails
  leaves the tables as they were. Each is written twice: as a function on the tables, and as a method
  of a class that updates them in place and is proved equal to the function. The properties are
  proved about the functions, so they hold of the class.
* Asynchronous code is cut at its suspensions: the code between two of them is one step, and a run
  interleaves the steps of any number of tasks in any order.
* A digest is a constructor around what it digests, so digests are injective; the audit chain hash
  alone may collide. Decryption succeeds with the process key that sealed. JSON, timestamps and
  signatures are parameters, with what is assumed of them stated (`AuditChain.Lawful`). Lengths in
  characters and encoded sizes enter where a limit is checked.
* What a transition does is stated twice: as the transition, and as laws about it that name neither it nor
  its helpers - a ledger of the calls before, the fields of what was asked, or the history of slots taken.
* Configuration is read anew by the gates at every step that reads it, so each such step takes any
  configuration; so do observations of the remote side, policy verdicts and audit outcomes.

## What the code does that its callers might not expect

* `claim` tests the chat's `disabled` flag, not the profile's stop: a chat first seen after a stop
  can claim (`DecisionRuns.LateChatClaims`). It is not admitted while the stop lasts, but keeps its
  slot and is admitted after the resume (`DecisionRuns.StoppedClaimWaitsForResume`); so is a decision
  claimed before the stop (`DecisionRuns.ClaimOutlivesStopAndResume`).
* A slot is given back by the finish of its own invocation and by nothing else. If the process dies
  between claim and finish, or the finish cannot be stored, the chat starts no call any more, whatever
  stops, resumes and restarts follow (`DispatchSlots.SlotLeaksIff`, `DispatchSlots.LeakedChatStartsNothing`).
* `append` commits an event whose text is longer than validation accepts, and then no append of the
  scope succeeds again (`AuditLog.OversizedAppendLocksTheLog`; exactly when, `AuditLog.AppendLeavesValidIff`);
  then nothing new is dispatched for that chat (`DispatchAudit.LockedChatDispatchesNothingNew`).
* A lease revoked at a clock reading before its issue is reported as unavailable storage afterwards
  (`LeaseRuns.RevocationKeepsRowValidIff`).
* A clock set back after a purge lets an origin proof through again (`OriginProofs.ClockSetBackReplays`);
  exactly when a purge since its acceptance read the clock past its expiry (`OriginProofs.ReplayIsCaughtIff`).
* `ask` reads the clock before it waits for cleanups. Then its removal of expired sessions can take
  the context another ask is running (`SessionOverrun.StalePurgeTakesRunningContext`; exactly when the
  record is active, `SessionSafety.PurgeOverrunsIff`), and with a stale reading it overlooks slots that a
  later reading has made the table forget (exactly which, `SessionStale.StaleReadingMissesIff`), so that
  the limit is exceeded (`SessionStale.StaleReadingOverfillsWindow`). With the reading and the slot in one
  step neither happens.
* A line ended by CR and an empty line ended by LF read as one terminator
  (`SseRoundTrip.LinesComeBackIff`), which joins two events exactly when data follows
  (`SsePayloads.PayloadsComeBackIff`).
* The probe normalises line ends again at every fragment, so that CR CR LF makes its report depend on
  how the response is split (`ProbeFragments.CrCrLfSplitsMatter`); nothing else does
  (`ProbeFragments.FragmentsDoNotMatter`).
* An event not followed by a blank line is delivered, where section 9.2.6 of the WHATWG HTML Living
  Standard discards it (`SseRoundTrip.UnterminatedEventIsKept`).

## Model

| member | source | states |
|---|---|---|
| `Decisions.DecisionStore.Create` | helpers/decisions.py:103-126 | in place, stale rows of the chat go, quota and size are checked, then the sealed row is inserted |
| `Decisions.DecisionStore.Load` | helpers/decisions.py:128-130 | in place, the payload of an unexpired, unspent decision of this chat sealed under this key; all error cases |
| `Decisions.DecisionStore.Update` | helpers/decisions.py:132-138 | in place, a loadable decision is sealed anew under its old expiry |
| `Decisions.DecisionStore.Disabled` | helpers/decisions.py:140-147 | in place, the stop flag of the profile; the control row comes into being |
| `Decisions.DecisionStore.Claim` | helpers/decisions.py:149-168 | in place, the expected payload, an enabled chat, no call in flight and quota left: the decision is spent and the slot taken, or nothing changes |
| `Decisions.DecisionStore.BeginNative` | helpers/decisions.py:170-194 | in place, slot and admission in one transaction, refused while the profile is stopped |
| `Decisions.DecisionStore.Finish` | helpers/decisions.py:196-202 | in place, the slot of this very invocation is freed and the admission row deleted |
| `Decisions.DecisionStore.RevokeScope` | helpers/decisions.py:204-214 | in place, generation raised, stopped, every chat disabled, every decision spent, outstanding admissions counted |
| `Decisions.DecisionStore.InvalidateProfile` | helpers/decisions.py:216-226 | in place, the two sweeps over sessions and decisions of one profile |
| `Decisions.DecisionStore.ResumeScope` | helpers/decisions.py:228-236 | in place, generation raised, stop and flags of every chat of the profile taken off, every decision spent |
| `Decisions.DecisionStore.Invalidate` | helpers/decisions.py:238-244 | in place, one decision of the chat is spent |
| `Decisions.DecisionStore.Admit` | helpers/decisions.py:246-269 | in place, unexpired, not stopped, the active invocation of its chat, not admitted before: an admission row with the generation |
| `DecisionRuns.FailureChangesNothing` | helpers/decisions.py:33-57 | a transaction that fails leaves all four tables as they were |
| `DecisionRuns.RunKeepsValid` | helpers/decisions.py:103-269 | every run keeps rows, slots, admissions and generations consistent |
| `DecisionRuns.AdmissionConsistency` | helpers/decisions.py:149-214 | an admission row is the active invocation of exactly one chat of its profile, and the rows are exactly the admitted and unfinished invocations |
| `DecisionRuns.OneCallPerChat` | helpers/decisions.py:149-202 | at most one admitted invocation per chat |
| `DecisionRuns.StopCountsInFlight` | helpers/decisions.py:204-214 | the number a stop reports is that of the admitted and unfinished invocations of the profile |
| `DecisionRuns.QuotaConservation` | helpers/decisions.py:103-244 | the stored count of a chat is the number of claims and native admissions ever committed for it |
| `DecisionRuns.QuotaBound` | helpers/decisions.py:149-194 | a whole run with calls limited to L commits at most L of them |
| `DecisionRuns.StopBarrier` | helpers/decisions.py:170-269 | from a stop to the next resume no admission of any kind commits for the profile, in any chat |
| `DecisionRuns.RevokeStops` | helpers/decisions.py:204-214 | a stop always commits and raises the barrier |
| `DecisionRuns.StoppedAdmissionsAreOlder` | helpers/decisions.py:204-269 | while stopped, every outstanding admission was made under a strictly older generation |
| `DecisionRuns.ProfilesIsolated` | helpers/decisions.py:204-244 | no run of transactions of other profiles changes a row of this one |
| `DecisionRuns.SlotIsHeldIff` | helpers/decisions.py:149-202 | over any run, a chat's slot stays with its invocation if and only if the run has no finish of that invocation in that chat |
| `DecisionRuns.HeldSlotRefusesCalls` | helpers/decisions.py:149-194 | while it does, no claim and no native call of the chat commits |
| `DecisionRuns.LateChatClaims` | helpers/decisions.py:149-168 | a chat without a session row claims whatever the stop flag of its profile |
| `DecisionRuns.StoppedClaimWaitsForResume` | helpers/decisions.py:228-269 | a claim committed during a stop is admitted in no run without a resume, and is admitted after the resume unless it was finished or has expired |
| `DecisionRuns.ClaimOutlivesStopAndResume` | helpers/decisions.py:204-269 | an active invocation not yet admitted is refused while stopped, and is admitted after the resume |
| `DecisionRuns.SpentIsNeverClaimed` | helpers/decisions.py:80-101 | a spent or removed decision is never claimed, whatever follows |
| `DecisionRuns.ClaimedAtMostOnce` | helpers/decisions.py:149-168 | at most one claim of an identifier commits in a run |
| `DecisionRuns.StopAndResumeKillUnclaimed` | helpers/decisions.py:204-236 | a decision still unclaimed when its profile is stopped or resumed is never claimed afterwards, in any chat |
| `DecisionLedger.TablesHoldTheLedger` | helpers/decisions.py:33-269 | after any run of any calls the four tables hold exactly what the committed calls say: every decision as last sealed, unless spent or collected; every chat with its charges, its stop and the call in its slot; every profile with the number of its stops and resumes; every admission until its finish |
| `DecisionLedger.CallsAnswerByTheLedger` | helpers/decisions.py:80-269 | so any next call commits, or fails with one particular error, as a function of the committed calls alone |
| `DecisionLedger.ValuesAreTheLedgers` | helpers/decisions.py:128-269 | a load returns the payload last sealed, an admission the number of stops and resumes before it |
| `DecisionLedger.StoppedChatsRefuseClaims` | helpers/decisions.py:149-226 | over any run, after a stop of its profile a chat that has a row by then refuses every claim until a resume |
| `DecisionLedger.ResumedChatsClaim` | helpers/decisions.py:149-236 | over any run, after a resume with no stop since, a decision created by any chat of the profile, untouched and unexpired, is claimed if the chat has no call in flight and quota left |
| `DecisionLedger.AtMost128Decisions` | helpers/decisions.py:103-126 | no chat ever has more than 128 decision rows |
| `Leases.LeaseStore.Issue` | helpers/leases.py:273-336 | in place, all argument checks, then a fresh unused row bound to the request |
| `Leases.LeaseStore.ValidateRow` | helpers/leases.py:338-371 | exactly the well-formed rows pass, and a matching request also vouches for scope and use limit |
| `Leases.LeaseStore.Consume` | helpers/leases.py:373-424 | in place, the first reason that applies, and one more use exactly when none does |
| `Leases.LeaseStore.Revoke` | helpers/leases.py:432-460 | in place, every live row the scope covers is revoked and counted, no other row changes |
| `LeaseRuns.RowsAlwaysValidate` | helpers/leases.py:338-371 | rows built by issue, consume and revoke under a clock that does not go back always validate |
| `LeaseRuns.RevocationKeepsRowValidIff` | helpers/leases.py:338-371 | a revoked row validates if and only if it was not revoked before its issue |
| `LeaseRuns.UsesAreCounted` | helpers/leases.py:373-424 | the use count of a lease is the number of its successful consumes in the run |
| `LeaseRuns.LeaseLifetime` | helpers/leases.py:273-424 | successful consumes never exceed the issued limit, 1 for single-use risks, and each has the issued binding |
| `LeaseRuns.NoUseAfterRevocation` | helpers/leases.py:432-460 | no consume succeeds after a revocation that covers the lease |
| `LeaseRuns.NoUseAfterExpiry` | helpers/leases.py:373-424 | no consume succeeds at or after the expiry |
| `LeaseRuns.LiveLeaseIsConsumed` | helpers/leases.py:373-424 | a live, unexpired, unexhausted lease with its own binding is consumed |
| `LeaseLedger.ConsumeAnswers` | helpers/leases.py:373-460 | over any run with a clock that does not go back a consume of an issued lease answers: revoked exactly after a revocation of its chat or its whole profile, mismatch for any other request, expired from issue plus ttl on, exhausted after as many uses as allowed, consumed otherwise |
| `LeaseLedger.IssuedIff` | helpers/leases.py:273-336 | a lease is issued if and only if its lifetime, uses, risk and approver are in bounds and its identifier is free, and then exactly for the request |
| `LeaseLedger.RevokeEndsExactly` | helpers/leases.py:432-460 | a revocation ends and counts the live leases of its chat, or of its profile, and touches no other |
| `LeaseLedger.UnavailableIff` | helpers/leases.py:338-371 | whatever the table holds, a row is reported as unavailable storage if and only if it says what no issued lease can |
| `Gate.DelegationGate.Preflight` | helpers/gate.py:140-202 | in place, a run of the protocol with others acting during the describe call; the outcome reported is the one sealed with the request, denied if the boundary check fails or the profile is stopped by then, and recorded in the audit store; an identifier that was issued but not reported is spent |
| `Gate.DelegationGate.Approve` | helpers/gate.py:223-254 | in place, an approval leaves the sealed decision stored with a lease that is bound to the sealed request for one unused use, and its record in the audit store |
| `Gate.DelegationGate.Recheck` | helpers/gate.py:327-379 | in place, a worker that goes on is ready with the call made of the new configuration, the tool just described and the new assessment, and that call is the sealed one; otherwise it is gone |
| `Gate.DelegationGate.Pass` | helpers/gate.py:384-405 | after a claim, with others acting before each stage: consumption if required, audit, admission and call in order; the log shows exactly the stages done, and the flag is set exactly for the whole path |
| `Gate.DelegationGate.Invoke` | helpers/gate.py:296-465 | in place, with steps of any other workers, operators and the clock before any of its own: it sends what it rebuilt from the second resolve, it is dispatched exactly if its whole path was logged, and if it had claimed and the finish could be stored no chat's slot and no admission row is left with its identifier |
| `DispatchInvariant.RunKeepsInv` | helpers/gate.py:140-465 | every interleaving keeps stores, leases, workers and log consistent |
| `DispatchSafety.DispatchFollowsItsPath` | helpers/gate.py:380-405 | what is logged of an invocation at its remote call is claim, lease consumption if required, dispatch audit, admission, call, in that order |
| `DispatchSafety.AtMostOnceDispatch` | helpers/gate.py:380-405 | no decision and no native admission reaches its remote call twice |
| `DispatchSafety.DispatchIsAudited` | helpers/gate.py:388-405 | before a remote call its dispatch record was appended to the audit store under the same chat |
| `DispatchAudit.DispatchRecordIsStored` | helpers/audit.py:387-488 | the stored state of the chat of a dispatched invocation is a log that has its dispatch record, less a pruned prefix, and a record not pruned is a stored row whose payload parses to that event with its number, chat and time, under the hash of everything before it |
| `DispatchAudit.AppendedIff` | helpers/audit.py:387-488 | in every reached store an append to a chat commits if and only if every event so far was within the limits of validation |
| `DispatchAudit.LockedChatDispatchesNothingNew` | helpers/gate.py:388-405 | once an event beyond them is in its log, nothing is dispatched for a chat but what had passed its audit stage before |
| `DispatchSafety.AdmittedInTime` | helpers/decisions.py:246-269 | a decision is admitted less than 300 seconds after its creation |
| `DispatchSafety.DispatchedIsApproved` | helpers/gate.py:223-465 | what is called has, field by field, the scope, passport, transport, target, arguments, data class and assessment or model of the preflight, which was not denied; a lease, needed always for an inference and a single-use risk, was issued for the request bound then, for one use, and spent on it |
| `DispatchSafety.BindingTellsApartIff` | helpers/inference_gate.py:104-122 | two preflights are bound alike if and only if they agree on scope, passport, arguments, data class, target and assessment or model |
| `DispatchSafety.LeasesAreNotShared` | helpers/inference_gate.py:158-223 | two invocations never use one lease |
| `DispatchSafety.FinishReleases` | helpers/gate.py:458-465 | finishing frees the slot and the admission of its own invocation; every other slot and admission, every count, flag and decision stays |
| `DispatchSlots.SlotLeaksIff` | helpers/gate.py:458-465 | in any reached state, the slot an invocation has taken stays taken in every later run if and only if no worker is executing or finishing that invocation |
| `DispatchSlots.LeakedChatStartsNothing` | helpers/decisions.py:149-194 | and then no later run claims or natively admits anything in that chat |
| `DispatchSlots.RunLeavesAlone` | helpers/gate.py:296-465 | no steps of others change a worker, the log of the invocation it has claimed, or its slot |
| `DispatchSafety.StopBarrier` | helpers/inference.py:225-300 | while a profile stays stopped no worker of it gets admitted, in delegation, inference or native calls |
| `DispatchSafety.StopEndsAdmissions` | helpers/gate.py:256-260 | so it is from the step of the operator that stops it, over any run, until the step of one that resumes it |
| `DispatchInvariant.PassedIsAuthentic` | helpers/gate.py:350-379 | a recheck that passes makes a call with the configuration, target, arguments and assessment of the preflight, field by field |
| `DispatchOutcomes.PreflightOutcome` | helpers/gate.py:140-202 | a preflight the store takes leaves its decision unspent and unapproved, open for 300 seconds, with the terms asked; any other leaves nothing |
| `DispatchOutcomes.ObserveToolOutcome` | helpers/gate.py:333-349 | a described tool goes on if and only if it is the one of the preflight, labels included; otherwise the decision is spent |
| `DispatchOutcomes.RecheckToolOutcome` | helpers/gate.py:350-379 | on a configuration, target or assessment that is not that of the preflight the decision is spent; on the same ones the call goes on exactly if it is permitted, not stopped, not denied and has the lease asked for |
| `DispatchOutcomes.RecheckRouteOutcome` | helpers/inference_gate.py:199-213 | the same for an inference, where a permission withdrawn is refused before the boundary is compared |
| `DispatchOutcomes.ReviewOutcome` | helpers/gate.py:223-246 | a decision is taken up for approval if and only if it is loadable, unapproved, open to approval and not stopped, under the configuration of its preflight |
| `DispatchOutcomes.IssueOutcome` | helpers/gate.py:231-252 | the lease issued is for the sealed request, for one use and for at most five minutes |
| `DispatchOutcomes.ConsumeOutcome` | helpers/gate.py:384-387 | an invocation passes its lease stage if and only if its own lease is live, unused and for what it is about to send; that use is then recorded |
| `DispatchOutcomes.AdmitOutcome` | helpers/decisions.py:246-269 | it passes admission if and only if it is in time, its profile not stopped, and its slot its own and not admitted yet |
| `DispatchInvariant.ConsumeKeepsInv` | helpers/inference_gate.py:185-275 | consuming a lease keeps every invariant, the spender recorded |
| `DispatchWitness.ApprovedCallIsDispatched` | helpers/gate.py:223-465 | from any state in which the chat is not stopped, has its slot and quotas free and its log validates, a tool call or inference that is preflighted, approved and invoked with nothing in between goes through all five stages, with its lease spent and its record in the audit store |
| `AuditLog.StoreRefinesUnboundedLog` | helpers/audit.py:336-475 | after any run of appends the head hash folds every event ever appended, the base hash exactly the pruned ones; the rows are exactly the rest, each parsing to its event, number, chat and time, at most 10,000 and younger than 30 days; and the state validates |
| `AuditLog.AppendRefines` | helpers/audit.py:387-488 | one append adds its event and prunes a prefix, never the new row |
| `AuditLog.PruneRefines` | helpers/audit.py:336-385 | pruning moves the base to the last row dropped and keeps the rest |
| `AuditLog.PruneRetains` | helpers/audit.py:336-385 | what is kept is within the count and the age limit |
| `AuditLog.RefinedIsValidIff` | helpers/audit.py:540-609 | a stored suffix of a genuine log validates if and only if text and sequence limits hold |
| `AuditLog.AppendLeavesValidIff` | helpers/audit.py:387-488 | the state after an append validates if and only if the new text and sequence number are within the limits validation sets |
| `AuditLog.OversizedAppendLocksTheLog` | helpers/audit.py:540-609 | one oversized event is committed and no later append succeeds |
| `AuditLog.TamperEvidence` | helpers/audit.py:569-607 | two row lists accepted under one head decode to the same records, or an explicit chain-hash collision is produced |
| `AuditLog.AcceptedRowsAreTheLog` | helpers/audit.py:569-607 | rows under a genuine head are accepted if and only if every column is that of the events appended and the texts are within the limit, or an explicit collision is produced |
| `AuditVerdict.ValidStateIff` | helpers/audit.py:540-609 | a stored state, whoever wrote it, validates if and only if it is empty or one chain: records of the scope numbered on from the base, columns repeating their payload, each hash over the record and the hash before, from 64 zeros if nothing was pruned, to the head hash |
| `AuditCache.PublishKeepsBounds` | helpers/audit.py:496-529 | whatever is published the cache stays within 32 MiB and 4 scopes |
| `AuditCache.CacheIsTransparent` | helpers/audit.py:585-608 | with evidence that passed validation before, cached validation accepts exactly what full validation accepts, for any rows |
| `AuditCache.CacheNeverChangesTheVerdict` | helpers/audit.py:496-608 | in every state reached by concurrent validations, publications, stale publications and evictions the verdict is that of full validation |
| `AuditCache.CommittedRowsAreRemembered` | helpers/audit.py:496-529 | in every such state what a commit publishes is found by the next append of its scope, every row of it, unless it is larger than the whole cache |
| `AuditCache.EvictsNoMoreThanItMust` | helpers/audit.py:516-529 | eviction takes the oldest scopes and stops as soon as the new one fits |
| `Audit.AuditStore.ValidateState` | helpers/audit.py:540-609 | the loop over the rows computes exactly the specified verdict |
| `Audit.AuditStore.Prune` | helpers/audit.py:336-385 | in place, the specified suffix and the new base |
| `Audit.AuditStore.PublishCache` | helpers/audit.py:496-529 | in place, the scope is replaced and the oldest slots evicted until it fits |
| `Audit.AuditStore.Append` | helpers/audit.py:387-488 | in place, validation, extension, pruning and publication; nothing changes when validation fails |
| `Origin.OriginVerifier.Purge` | helpers/embassy_origin.py:112-124 | in place, exactly the nonces past their expiry go |
| `Origin.OriginVerifier.Verify` | helpers/embassy_origin.py:82-124 | in place, the first reason that applies, and the nonce recorded exactly when none does |
| `OriginProofs.TableRefinesHistory` | helpers/embassy_origin.py:112-124 | one request is answered as by a verifier that forgets nothing; a fresh unseen proof is refused only when capacity many accepted proofs are unexpired |
| `OriginProofs.BoundedTableIsExact` | helpers/embassy_origin.py:82-124 | over any run with a clock that does not go back the table stays within capacity and answers for the whole history |
| `OriginProofs.VerdictIsDue` | helpers/embassy_origin.py:82-124 | over any such run the answer is accepted, for the peer named, if and only if the proof names this audience, service, method, path and body in time, its nonce is not held by an accepted proof that could still be fresh, and there is capacity; otherwise the first reason that applies |
| `OriginProofs.NoReplay` | helpers/embassy_origin.py:82-124 | accepted claims are never accepted again |
| `OriginProofs.PurgeDropsOnlyStale` | helpers/embassy_origin.py:112-124 | a purged nonce belongs to a proof that is stale from then on |
| `OriginProofs.RememberedIff` | helpers/embassy_origin.py:112-124 | under any clock, a nonce in the table that is not accepted anew is still there if and only if no request since that got as far as the purge read the clock past its expiry |
| `OriginProofs.ReplayIsCaughtIff` | helpers/embassy_origin.py:82-124 | and a repeat that is still fresh is answered as a replay if and only if that is so; otherwise it is accepted or meets the capacity limit |
| `OriginProofs.ClockSetBackReplays` | helpers/embassy_origin.py:112-124 | with the clock set back after a purge the same proof is accepted again |
| `Sessions.SessionManager.ListExpired` | helpers/embassy_sessions.py:77-80 | exactly the inactive expired sessions, each once |
| `Sessions.SessionManager.Remove` | helpers/embassy_sessions.py:59-62 | in place, the session leaves the table and its context is left to clean up |
| `Sessions.SessionManager.Trim` | helpers/embassy_sessions.py:97-102 | in place, old stamps popped from the front, empty keys deleted |
| `Sessions.SessionManager.Enter` | helpers/embassy_sessions.py:83-128 | in place, every check in order, then stamp, slot and session in one piece |
| `Sessions.SessionManager.Leave` | helpers/embassy_sessions.py:131-146 | in place, the slot given back, the record updated even if no longer listed, and the session removed unless it is to be kept |
| `Sessions.SessionManager.Finish` | helpers/embassy_sessions.py:148-155 | in place, only an idle session bound to the caller and its service is removed, its context left to clean up |
| `SessionRuns.RunKeepsInv` | helpers/embassy_sessions.py:59-166 | every interleaving keeps slots, ownership, bounds, cleanups and drains consistent |
| `SessionSafety.SlotsAreTheRunningAsks` | helpers/embassy_sessions.py:95-146 | the slot counter of a service is the number of its running asks and never above its limit |
| `SessionSafety.TablesStayBounded` | helpers/embassy_sessions.py:104-110 | at most 128 sessions and 1024 rate keys |
| `SessionSafety.SessionsHaveOneOwner` | helpers/embassy_sessions.py:87-94 | all slots ever taken on a session have its one service and origin, and no two asks run on it at once |
| `SessionOutcomes.FinishEndsIff` | helpers/embassy_sessions.py:148-155 | in every reached state a finish ends the session it names if and only if it is listed, idle, and every slot ever taken on it was for this very service and origin; no other session leaves by it, and its context is handed to the cleanup |
| `SessionOutcomes.BeginIsScreened` | helpers/embassy_sessions.py:64-80 | an ask reads the clock if and only if the peer is verified, the request well formed and short enough, and the manager accepting; it is bound to its service and peer and has to remove exactly the sessions that are idle and expired |
| `SessionOutcomes.EntersIff` | helpers/embassy_sessions.py:83-115 | in every reached state an ask takes a slot if and only if the manager accepts, the session it names is idle, unexpired and its own - or none is named and there is room - and concurrency and rate allow it |
| `SessionOutcomes.RefusalIsDue` | helpers/embassy_sessions.py:83-110 | otherwise it fails with the first error that applies, in terms of the slots taken and the asks running |
| `SessionOutcomes.EnteredRuns` | helpers/embassy_sessions.py:111-130 | it then runs on the session named as that was, or on a new one with the context made for it, unless that could not be made |
| `SessionOutcomes.LeaveKeepsIff` | helpers/embassy_sessions.py:126-146 | a listed session is kept after its ask, idle, with the context of the runner and the idle time from then on, if and only if it was answered and the service keeps sessions; otherwise it leaves the table and its context goes to the cleanup |
| `SessionOutcomes.AnsweredSessionIsResumable` | helpers/embassy_sessions.py:83-146 | and then the peer that was answered, and no other, may resume it until it expires |
| `SessionOutcomes.RemovalsAreSingle` | helpers/embassy_sessions.py:59-82 | an ask, an expiry and a drain remove the sessions on their lists one by one, each with its context to the cleanup and nothing else changed |
| `SessionSafety.CleanedAtMostOnce` | helpers/embassy_sessions.py:59-62 | each session is handed to the cleanup at most once, and is gone by then |
| `SessionSafety.DrainIsFinal` | helpers/embassy_sessions.py:157-166 | no slot is taken after a drain begins; after it has returned there is no session and no running ask for good |
| `SessionSafety.PurgeOverrunsIff` | helpers/embassy_sessions.py:77-82 | removing an expired session takes it from a running ask if and only if its record is active at that moment |
| `SessionSafety.SerialPurgeSparesRunningAsks` | helpers/embassy_sessions.py:77-82 | never, when the clock reading and the slot are one step |
| `SessionOverrun.StalePurgeTakesRunningContext` | helpers/embassy_sessions.py:77-128 | a legal run from the empty manager in which a running context is cleaned up |
| `SessionWindow.SlidingWindow` | helpers/embassy_sessions.py:97-112 | with slots asked for in the order of their readings every half-open minute over the whole history holds at most the limit |
| `SessionWindow.RecentIsYoung` | helpers/embassy_sessions.py:97-102 | of stamps in order exactly those younger than a minute stay |
| `SessionWindow.SerialIsPunctual` | helpers/embassy_sessions.py:77-112 | with the reading and the slot one step of a clock that does not go back, slots are asked for in that order |
| `SessionStale.StaleReadingMissesIff` | helpers/embassy_sessions.py:97-102 | after such a run an ask with any reading counts exactly the slots younger than a minute both at its reading and at the last trim: with a reading behind that trim it misses those that were a minute old at the trim, and no others |
| `SessionStale.StaleReadingOverfillsWindow` | helpers/embassy_sessions.py:77-128 | a legal run from the empty manager in which an ask held in a cleanup gets a third slot in a minute that allows two |
| `Registry.EmbassyRegistry.EnterStart` | helpers/embassy_runtime.py:51-125 | in place, the decision under the lock and the unregistered record |
| `Registry.EmbassyRegistry.Launched` | helpers/embassy_runtime.py:124-134 | in place, registered exactly if ready, allowed and not closing, else told to stop |
| `Registry.EmbassyRegistry.EnterClose` | helpers/embassy_runtime.py:150-158 | in place, the record of this owner is told to stop |
| `Registry.EmbassyRegistry.EndClose` | helpers/embassy_runtime.py:165-167 | in place, only the very record that was closed leaves the table |
| `Registry.EmbassyRegistry.EnterCloseAll` | helpers/embassy_runtime.py:174-179 | in place, every listed record is told to stop |
| `RegistryRuns.RunKeepsInv` | helpers/embassy_runtime.py:48-185 | every interleaving of starts, closes and close-alls keeps lock, table, tasks and waiters consistent |
| `RegistrySafety.AtMostEightServices` | helpers/embassy_runtime.py:59-60 | at most 8 services, although registration comes after the check |
| `RegistrySafety.NoTaskIsOrphaned` | helpers/embassy_runtime.py:124-134 | a lifecycle task still running is registered or belongs to the start holding the lock, and whoever waits for it has told it to stop |
| `RegistrySafety.OnlyFinishedRecordsLeave` | helpers/embassy_runtime.py:149-167 | a name goes on standing for its record until the close of that record finds its task finished; no late close removes a newer one and no start replaces one |
| `RegistryOutcomes.StartLaunchesIff` | helpers/embassy_runtime.py:48-60 | in every reached state a start that gets the lock begins a lifecycle task if and only if the registry is not closing, the name is free and fewer than 8 services are listed; otherwise it ends and nothing else has changed |
| `RegistryOutcomes.LaunchedRegistersIff` | helpers/embassy_runtime.py:118-134 | in every reached state, if its task is ready, the guard allows and closing is not set, the name comes to stand for its record, which was never told to stop, and the lock is free; in any other case the record is told to stop and the lock kept |
| `RegistryOutcomes.StartLeftAloneRegisters` | helpers/embassy_runtime.py:48-134 | from every reached state with the lock free, not closing, the name free and fewer than 8 services, a start left alone runs legally to its registration and changes no other service |
| `RegistryOutcomes.UndoneStartFreesTheLock` | helpers/embassy_runtime.py:129-133 | a start that was refused or cancelled frees the lock only when its task has finished, and was never listed |
| `RegistryOutcomes.CloseTellsIff` | helpers/embassy_runtime.py:149-158 | a close tells a record to stop if and only if the name stands for it and the owner is its own; any other changes nothing |
| `RegistryOutcomes.ClosedNameIsFree` | helpers/embassy_runtime.py:159-167 | when the record closed has finished the name is free, if it still stands for it |
| `RegistryOutcomes.CloseLeftAloneFrees` | helpers/embassy_runtime.py:149-167 | from every reached state with the lock free a close of its own service, left alone, runs legally until the name is free, the task finished and every other service as it was |
| `RegistryOutcomes.CloseAllTellsTheListed` | helpers/embassy_runtime.py:169-185 | a close-all tells exactly the listed records, and begins for each name a close by its own owner |
| `RegistrySafety.ClosingRegistersNothing` | helpers/embassy_runtime.py:124-185 | once closing is set no service is registered and no task started |
| `RegistrySafety.CloseAllLeavesNothing` | helpers/embassy_runtime.py:169-185 | when a close-all has returned the table is empty and every lifecycle task ever started has finished |
| `RegistrySafety.CloseAllIsFinal` | helpers/embassy_runtime.py:169-185 | and so it stays |
| `Sse.Decode` | helpers/mcp_transport.py:221-245 | the loop yields the values of the payloads of the lines, or the first malformed one, or that there is none |
| `SseRoundTrip.LinesComeBackIff` | helpers/mcp_transport.py:228 | printed lines are read back one for one if and only if no line ended by CR is followed by an empty line ended by LF |
| `SseRoundTrip.RoundTrip` | helpers/mcp_transport.py:221-245 | payloads printed as data lines, each with the space after the colon or without, with ignored lines anywhere between and terminators that do not run together, decode to exactly their texts |
| `SsePayloads.PayloadsComeBackIff` | helpers/mcp_transport.py:221-245 | they do if and only if no blank line that merges with the CR before it has data behind it |
| `SseRoundTrip.UniformRoundTrip` | helpers/mcp_transport.py:221-245 | so with LF, CR or CRLF throughout |
| `SseRoundTrip.ValuesRoundTrip` | helpers/mcp_transport.py:221-245 | and a nonempty list of JSON values comes back |
| `Sse.DecodingIff` | helpers/mcp_transport.py:221-245 | a stream is malformed if and only if some payload is not JSON, without events if and only if there is no payload, and else the values of its payloads in order |
| `SseRoundTrip.UnterminatedEventIsKept` | helpers/mcp_transport.py:241-242 | the blank line after the last event is not needed |
| `SseRoundTrip.MixedTerminatorsJoinEvents` | helpers/mcp_transport.py:228 | CR after data and LF for the blank line join two events |
| `Probe.DrainBuffer` | helpers/inference.py:134-159 | the inner loop terminates and takes every whole event, up to the first error |
| `Probe.Probe` | helpers/inference.py:125-161 | the outer loop with its size limit and the final checks |
| `ProbeFragments.ProbeReportsBytes` | helpers/inference.py:125-161 | without CR CR LF, what the probe reports is a function of the bytes alone |
| `ProbeFragments.FragmentsDoNotMatter` | helpers/inference.py:125-161 | without CR CR LF and with at most 65,536 bytes, two splittings give the same chunk count, tool-call flag, completion and first error |
| `ProbeEvents.CompleteStreamIsCounted` | helpers/inference.py:134-161 | in any splitting, events of LF or CRLF lines with any padding around their data, then the end: verified with the number of chunks and whether any calls a tool, or incomplete if there is none |
| `ProbeEvents.StreamOfChunksIsVerified` | helpers/inference.py:134-161 | n chunks and the end are verified with n chunks |
| `ProbeEvents.FirstErrorIsReported` | helpers/inference.py:146-159 | the first event judged bad is what is reported, whatever follows |
| `ProbeEvents.DataBehindTheEndIsReported` | helpers/inference.py:143-147 | data behind the end is malformed |
| `ProbeEvents.EndlessStreamIsIncomplete` | helpers/inference.py:160-161 | a stream without its end is incomplete |
| `ProbeEvents.RemainderIsIncomplete` | helpers/inference.py:160-161 | and so is one with something begun behind the end |
| `ProbeFragments.NormIsStableIff` | helpers/inference.py:134-136 | normalising line ends twice is normalising once if and only if there is no CR CR LF |
| `ProbeFragments.OversizedFails` | helpers/inference.py:128-130 | a response over the limit always fails, however it is split |
| `ProbeFragments.CrCrLfSplitsMatter` | helpers/inference.py:134-136 | for any event text accepted as a chunk, a response with CR CR LF in it has two splittings with different reports |

## Left out

- SQLite, files and locks (`helpers/storage.py`): transactions are taken as serialised and atomic.
- Cryptography, base64, JSON and timestamp text: parameters or injective constructors, as above.
- TCP and socket transports, MCP requests, gateways, node processes, user interface: input and output.
- Configuration parsing, passport evaluation, risk tables, schema checks: their results are inputs of the gates.
- `safe_output`, redaction, list and verify views of the audit store, publication wrappers: easy or without a clean law.
- `Dispatch`: a remote call that runs and fails is not distinguished from one that succeeds; an approval that cannot be recorded is the step Vanish; of an audit event only its kind and identifier are kept.
- `Gate`: `InferenceGate` and `GovernedNativeModel` are modelled in `Dispatch` only; validation of the arguments and of the schema, and which of the failures is reported, are not modelled.
- `Leases.LeaseStore.ValidateRow`: the checks of storage class, digest format and timestamp text are not represented, because columns hold typed values here.
- `DecisionRuns`: a finish names the chat its identifier was issued to, as every caller does.
- `SessionRuns`: services of one name are equal, as a manager serves one published service; the runner and the cleanup are outside, so a context handed on by a runner is not followed.
- `RegistryRuns`: the drain inside a lifecycle task and its timeouts are not modelled; a task may end at any time. Maintenance is the closes it starts.
- `Sse.Decode`: UTF-8 decoding precedes the model, which works on characters.
- `Probe.Probe`: the mode without streaming, HTTP status and deadline are not modelled; `judge` stands for the checks of one event's JSON.
- `LeaseLedger.ConsumeAnswers`: needs a clock that does not go back; set back before the issue, a revocation makes the row unavailable instead (`LeaseRuns.RevocationKeepsRowValidIff`).
- `OriginProofs.VerdictIsDue`: needs a clock that does not go back; under any other, `OriginProofs.ReplayIsCaughtIff` says which repeats are caught.
- `ProbeEvents.CompleteStreamIsCounted`: lines ended by a lone CR are not followed, nor blank lines in a row; that splittings do not matter for them either is `ProbeFragments.FragmentsDoNotMatter`.
- `SessionSafety.SerialPurgeSparesRunningAsks`: sufficient only; exactly when a single removal goes wrong is `SessionSafety.PurgeOverrunsIff`.
- `SessionWindow.SlidingWindow`: needs slots asked for in clock order; what an ask out of that order overlooks is `SessionStale.StaleReadingMissesIff`.
- `DispatchWitness.ApprovedCallIsDispatched`: sufficient only, for a call left alone; a tool call that needs no lease is not followed.
- `ProbeFragments.FragmentsDoNotMatter`: a stream with CR CR LF may still be reported alike in all splittings; that it need not be is shown for one family of streams.
