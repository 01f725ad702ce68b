# Verified model of the secure agent room

Two organizations let their AI agents work together in a *room*. Humans agree on a contract, set policies and connect
agents; an orchestrator then runs the agents turn by turn, and everything an agent says passes a pipeline that filters,
classifies, decides and then blocks, holds for a human, or releases it into the room's event stream. This project models
that platform in Dafny and proves what its runs guarantee. `dafny verify dfyconfig.toml` checks all of it.

How it is built:

- **Room protocol.** `RoomData` holds the records of one room, `RoomSpec` says as functions what every service call does
  to them (including what a call has already stored when it ends in an error), and `Exec`/`Run` put all calls together in
  any order. `RoomStore`, `Rooms`, `Pipeline`, `Approvals`, `Orchestrator` and `Runtime` are the program's own form: a
  store object whose fields are updated in place and methods with the source's branches and loops. Each method is proved
  to do what its function in `RoomSpec` or `Turns` says, and `Orchestrator.Perform` does so for every call at once.
  `RoomRecords`, `RoomMoves` and `Provenance` say without those functions exactly when a call succeeds, what it leaves and
  where it may move a room; `RoomLifecycle`, `RoomContracts`, `RoomStream`, `RoomCompletion` and again `RoomMoves` and
  `Provenance` prove the guarantees over every run.
- **Approvals under interleaving.** `ApprovalRace` runs any number of decisions and closings between single store calls;
  `LateWrites` says exactly what overlapping calls can still do, `DecisionRecords` what a decision records and announces, alone
  and interleaved.
- **Turns.** `Turns`, `TurnBudget`, `TurnLimits`, `LoopDetection` and `StartTimes`: budgets, alternation, loop detection and the
  duration limit, with arbitrary calls while an adapter is in flight. `TurnRuns` proves that turns are runs of service
  calls, so that everything proved of runs holds of rooms that are being driven.
- **Policy and classification.** `Policy` against its Rego mirror `Rego`, with the verdicts by their inputs in `Verdicts`;
  `Dlp` feeds it, and `DlpCoverage` says what it sees.
- **Audit.** `Json`, `JsonRoundTrip`, `JsonOrder` (canonical JSON), `AuditChain` (hash chain), `PgAppend` (Postgres
  transactions, statement by statement).
- **Small cores.** `RateLimit`, `Outbox` with `OutboxTiming`, `Luhn`.

The digest, the secret and personal-data detectors, agent adapters and the outcome of sending e-mail are parameters, so
every result holds for all of them. A call on a room is given its time; where the order of times decides what can happen
(`ApprovalRace`, `LateWrites`, `Outbox`, `RateLimit`) time is a clock that never goes back. The digest is
never assumed to be injective: results say "equal, or here is a collision".

## Where the code does not do what it or its documentation says

Each of these is a theorem of the model: a run in which it happens, and exactly when it does.

- *Both sides must approve before agents work.* A room that is quarantined while still NEGOTIATING may be paused and then
  resumed to ACTIVE without agreement (`SecretsBypassAgreement`); pausing a quarantined unagreed room is the only call
  that does this (`AgreementIsBypassedIff`), and such a room always went from NEGOTIATING to QUARANTINED
  (`UnagreedWasQuarantinedEarly`).
- *A refused redemption changes nothing.* `redeemInvite` stores the invite and the participant before it checks the
  room's state, so after a cancellation an invited organization is refused but has joined (`RefusedRedemption`,
  `CanceledRoomIsJoined`).
- *The duration budget limits every room.* It limits a room exactly if a participant's `startRoom` succeeded in READY
  (`DurationLimitsIff`); no other call sets the start time, and none changes it (`StartTimeIsFirstStart`,
  `StartTimeNeverChanges`). A room gets to ACTIVE without it by being resumed from READY (`ResumedRoomHasNoDuration`) and
  by way of QUARANTINED and PAUSED, from READY or from NEGOTIATING (`QuarantinedRoomHasNoDuration`).
- *"Keep the two in sync."* The Rego mirror misses two rules of the engine (`AllowCoincides`, `MirrorAllowsMore`,
  `MirrorIgnoresScope`).
- *No agent event after CLOSED.* It holds when calls are atomic, turns in flight included (`ClosedForever`,
  `ClosedWhileDriven`). Between single store calls an agent event can still appear exactly in three cases, CLOSED or not
  (`AgentEventPossibleIff`): a decision has come to its release; a decision to approve has passed its checks and its
  approval is still pending; or an approval is pending, not past its expiry, and a human can approve it. That includes
  claims won after the room was stored as CLOSED and before its approvals were voided, and approvals held after
  `closeRoom` has listed them. Once nothing is pending and nothing new is held, it appears exactly when a decision that
  has already won its claim makes its release step (`LateReleasesIff`, `AfterClosingIff`; a run: `ReleasedIntoClosedRoom`).
- *A decided approval keeps its status.* It can change exactly if a running decision holds a copy of when the approval was
  pending, or a running `closeRoom` has it on its list (`StatusCanChangeIff`); the step that changes it is their stale
  write, to EXPIRED or INVALIDATED (`StatusChangesIff`). Runs: `ApprovedBecomesExpired`, `ApprovedBecomesInvalidated`.
- *A declaration can only tighten.* It fails exactly where the scanners find nothing and the contract forbids "general"
  (`DeclarationOnlyTightens`; a case: `DeclarationCanLoosen`).
- *Retries wait out the backoff.* The backoff counts from the start of a tick, whose sends are made later and one after the
  other. Between the sends themselves the full backoff is kept by every run exactly if the first send is made at the very
  start of its tick (`FullGapIff`); in a slow batch two sends can be one second apart (`OneSecondApart`).

## Model

| member | source | states |
|---|---|---|
| JsonRoundTrip.RoundTrip | packages/audit/src/index.ts:8-24 | decoding a canonical text gives back the value with undefined members dropped, undefined elements read as null and keys sorted; only a bare undefined has no text |
| JsonRoundTrip.SameTextIffSameNormal | packages/audit/src/index.ts:8-24 | two values share a canonical text exactly when they agree up to that normalisation |
| JsonOrder.CanonicalOrder | packages/audit/src/index.ts:17-21 | a canonical text has exactly the defined members, and of any two that one first whose key is a proper prefix or has the smaller number where the UTF-16 code units of the two keys first differ, section 3.2.3 of RFC 8785 |
| JsonOrder.Utf16Is | packages/audit/src/index.ts:17-21 | a character below U+10000 is its own code unit, any other a high and a low surrogate from which it can be computed |
| JsonOrder.SampleKeys | packages/audit/src/index.ts:17-21 | the keys of the example in section 3.2.3 of RFC 8785 stand in its order, an emoji before a Hebrew letter |
| JsonOrder.StringsAreEscaped | packages/audit/src/index.ts:8-16 | strings are escaped as section 3.2.2.2 of RFC 8785 says, character by character |
| JsonOrder.ScalarsAreWritten | packages/audit/src/index.ts:8-12 | null, booleans, strings and whole numbers are written as section 3.2.2 of RFC 8785 says |
| JsonOrder.ListsAreWritten | packages/audit/src/index.ts:13-15 | lists are written without blanks, undefined elements as null |
| JsonOrder.MembersAreWritten | packages/audit/src/index.ts:16-22 | members are written without blanks, undefined ones left out |
| JsonOrder.InsertionOrderIrrelevant | packages/audit/src/index.ts:17-21 | objects with the same defined members have the same text, whatever the insertion order |
| AuditChain.VerifyChain | packages/audit/src/index.ts:69-79 | accepts exactly the linked lists and otherwise reports the first event that does not fit |
| AuditChain.TamperEvidence | packages/audit/src/index.ts:49-79 | two accepted lists that end in the same hash are the same history up to canonical equality, or the comparison yields two different texts with one digest, or a text whose digest is the genesis hash |
| AuditChain.AppendKeepsIntact | packages/audit/src/index.ts:56-61 | chaining after the head keeps a list linked and numbered 1..n |
| AuditChain.IntactIff | packages/audit/src/index.ts:49-61 | a log is in order exactly if every event has its number, the hash of the event before it (64 zeros for the first), and the digest of that hash followed by the canonical text of its fields and number |
| AuditChain.AuditLog.AppendAuditEvent | packages/database/src/memory.ts:174-180 | adds exactly the next chained event after the old ones; a log that is linked and numbered 1..n stays so |
| PgAppend.StepKeepsInv | packages/database/src/postgres.ts:65-78 | every statement of every transaction keeps: committed tables in order, and whoever holds the lock has read the present head |
| PgAppend.CommittedTablesInOrder | packages/database/src/postgres.ts:319-448 | under every interleaving of any number of writers, rollbacks included, the committed audit table is a linked chain numbered 1..n and each room's events are numbered 1..m, and they hold exactly what the transactions that committed had to append, in commit order |
| PgAppend.EndsOnce | packages/database/src/postgres.ts:65-78 | no transaction commits twice, and none both commits and rolls back |
| PgAppend.UnhinderedAppends | packages/database/src/postgres.ts:65-78 | from every state a writer whose lock is free can append: some continuation commits it and adds exactly its row |
| Policy.Evaluate | packages/policy/src/index.ts:40-142 | the chain of early returns and the category loop compute the ordered first-match decision for all inputs |
| Verdicts.VerdictIs | packages/policy/src/index.ts:40-142 | exactly which inputs are allowed, held for a human and denied, by the fields of input, policy and contract |
| Verdicts.DenialNamesItsReason | packages/policy/src/index.ts:47-141 | a denial names a rule that really stands against the input |
| Verdicts.LevelsAscend | packages/shared/src/classification.ts:4-17 | sensitivities ascend strictly from public to secret |
| Policy.NotDeniedIsClean | packages/policy/src/index.ts:47-75 | whatever is allowed or held has no secret finding, is in a routing room, and carries no hard-deny and no forbidden category |
| Policy.AllowIsMonotone | packages/policy/src/index.ts:47-141 | with fewer categories and lower sensitivity an allowed input stays allowed, exactly unless the contract forbids one of the new categories |
| Rego.BodiesExclusive | packages/policy/src/rego/room_policy.rego:18-51 | no two non-default bodies of the module ever fire together |
| Rego.FloorsCoincide | packages/policy/src/rego/room_policy.rego:18-37 | the three floor denials of the engine and of the mirror coincide rule for rule |
| Rego.AllowCoincides | packages/policy/src/rego/room_policy.rego:41-93 | the engine allows exactly when the mirror does, the action is not on the participant's approval list, and a disclosure is within the permitted classes; a proposal without an action counts as naming the empty one |
| Rego.MirrorAllowsMore | packages/policy/src/rego/room_policy.rego:1-6 | a concrete input that the mirror allows and the engine does not |
| Rego.MirrorIgnoresScope | packages/policy/src/rego/room_policy.rego:77-87 | a concrete disclosure outside the contract's scope that the mirror allows and the engine denies |
| Dlp.ExtractStrings | packages/dlp/src/index.ts:17-30 | the accumulator receives exactly the strings and keys of the value to depth eight, in order |
| Dlp.ReassemblyCandidates | packages/dlp/src/index.ts:54-66 | the accumulator receives exactly the joined runs of sibling strings of every container |
| Dlp.RunDlp | packages/dlp/src/index.ts:75-106 | the loops compute the specified report: deduplicated findings, merged categories, raised sensitivity |
| DlpCoverage.StringsAreThose | packages/dlp/src/index.ts:17-30 | the scanned strings are exactly the strings and keys that stand up to eight levels deep |
| DlpCoverage.CandidatesAreThose | packages/dlp/src/index.ts:54-66 | the rejoined texts are exactly, of every container up to eight levels deep, two to four neighbouring strings joined and all strings joined when there are more than four |
| DlpCoverage.FindingsAre | packages/dlp/src/index.ts:75-86 | a secret finding is exactly one of the whole text or of some rejoined text, a personal-data finding one of the whole text |
| DlpCoverage.SecretInTextIsDenied | packages/dlp/src/index.ts:75-106 | a secret in the whole text is denied by every policy, whatever is declared |
| Dlp.DeclarationMerges | packages/dlp/src/index.ts:87-105 | with a declaration the categories are exactly the found and the declared ones (and "general"), the sensitivity the higher of both |
| Dlp.UndeclaredIsFound | packages/dlp/src/index.ts:87-105 | without one they are exactly the found ones, or "general", and the sensitivity tells exactly whether a secret was found |
| Dlp.DeclarationOnlyTightens | packages/dlp/src/index.ts:68-106 | a body allowed with a declaration is allowed without one, for every policy and contract, exactly unless nothing is found and the contract forbids "general" |
| Dlp.DeclarationCanLoosen | packages/dlp/src/index.ts:93-99 | any body in which nothing is found is allowed with a declared label and denied without it by a contract that forbids "general" |
| Dlp.SplitSecretIsDenied | packages/dlp/src/index.ts:54-84 | a secret cut into two to four neighbouring strings, or into all strings, of any container up to eight levels deep is still denied by every policy |
| Luhn.LuhnValid | packages/dlp/src/pii.ts:38-51 | the backward loop decides the Luhn formula of Annex B of ISO/IEC 7812-1 for digit strings of any length |
| Luhn.ValidIff | packages/dlp/src/pii.ts:38-51 | the same by a sum taken digit by digit from the left; zeros in front change nothing |
| Luhn.CheckDigit | packages/dlp/src/pii.ts:38-51 | every number is completed to a valid one by exactly one check digit |
| Luhn.SingleDigitError | packages/dlp/src/pii.ts:38-51 | changing one digit of a valid number always makes it invalid |
| Luhn.AdjacentSwap | packages/dlp/src/pii.ts:38-51 | swapping two different neighbours keeps a valid number valid exactly for the pair 0 and 9 |
| RateLimit.Limiter.RateLimit | apps/api/src/app.ts:66-81 | the new buckets and the answer, for any bucket state |
| RateLimit.Limiter.PruneBuckets | apps/api/src/app.ts:82-85 | exactly the buckets older than five windows are dropped |
| RateLimit.PruningChangesNoDecision | apps/api/src/app.ts:66-85 | pruning at any points of a run changes no decision |
| RateLimit.SpanBound | apps/api/src/app.ts:66-81 | a span T admits at most limit * (floor(T / window) + 2) - 1 requests of a key, a span shorter than the window at most 2 * limit - 1 |
| RateLimit.SpanBoundIsMet | apps/api/src/app.ts:66-81 | the bound for short spans is met |
| RateLimit.RefusalMeansFull | apps/api/src/app.ts:66-81 | over every run a request is refused only if within the window before it the bucket was filled up and since then exactly the limit has been admitted |
| RateLimit.PruneForgetsIff | apps/api/src/app.ts:82-85 | a bucket is forgotten exactly if it was last filled up more than five windows ago |
| Outbox.Table.Enqueue | packages/database/src/memory.ts:199-204 | a row is added exactly when its dedupe key is new |
| Outbox.Table.ClaimPending | packages/database/src/memory.ts:205-213 | claims a batch of due rows, earliest first and none earlier left out, by bumping their attempts |
| Outbox.Table.MarkSent | packages/database/src/memory.ts:214-217 | exactly that row becomes SENT |
| Outbox.Table.MarkFailed | packages/database/src/memory.ts:218-227 | exactly that row is scheduled again or becomes FAILED |
| Outbox.Dispatcher.ShouldSuppress | packages/core/src/notifications.ts:368-374 | suppressed exactly when it is a reminder about an approval that is gone or decided |
| Outbox.ReminderIsDroppedIff | packages/core/src/notifications.ts:368-374 | a reminder is dropped exactly if the approval named between the first two colons of its key is not pending any more |
| Outbox.Dispatcher.Tick | packages/core/src/notifications.ts:325-365 | a tick settles every row of its batch and counts the delivered ones; a tick inside a tick does nothing |
| Outbox.TickHandlesBatch | packages/core/src/notifications.ts:325-365 | what a tick makes of each row of its batch, with the time of the next attempt; every other row is left alone |
| Outbox.DueIsHandled | packages/database/src/memory.ts:205-213 | no due row is passed over while there is room in the batch |
| Outbox.DeliveriesAreCounted | packages/core/src/notifications.ts:330-352 | a tick answers how many rows it sent with success |
| Outbox.StatusIsEarned | packages/core/src/notifications.ts:325-365 | over every run a FAILED row was sent as often as it may be, each time in vain, a SENT one was delivered last or is a dropped reminder, a PENDING one was sent in vain once per attempt |
| Outbox.OutboxGuarantee | packages/core/src/notifications.ts:325-365 | over every run a dedupe key has one row, at most maxAttempts sends of which only the last may succeed; the tick of the k-th send starts at least 2^(k-1) - 1 minutes after that of the first, and the sends are at least that far apart less the delay of the first within its tick |
| Outbox.TerminalForever | packages/core/src/notifications.ts:325-365 | a SENT or FAILED row is never claimed, changed or sent again |
| OutboxTiming.FullGapIff | packages/core/src/notifications.ts:330-352 | the sends themselves keep the full backoff in every run exactly if the first is made at the very start of its tick |
| OutboxTiming.OneSecondApart | packages/core/src/notifications.ts:330-352 | a run of two ticks in which a notification is sent twice within one second |
| RoomStore.Store.constructor | packages/core/src/rooms.ts:20-71 | a new store holds the created room in DRAFT with its creator as only participant |
| RoomStore.Store.UpdateRoom | packages/database/src/memory.ts:94 | stores the whole room record and nothing else |
| RoomStore.Store.UpdateParticipant | packages/database/src/memory.ts:108 | replaces the record with that id, or adds it when there is none, and nothing else |
| RoomStore.Store.LatestContractVersion | packages/database/src/memory.ts:125-129 | the version with the highest number, or nothing |
| RoomStore.Store.AppendRoomEvent | packages/database/src/memory.ts:134-140 | appends one event with the next sequence number under a new id |
| RoomStore.Store.UpdateApproval | packages/database/src/memory.ts:147 | stores the given record unconditionally |
| RoomStore.Store.ClaimApproval | packages/database/src/memory.ts:151-159 | patches the approval exactly when it has the expected status, and says whether it did |
| RoomStore.Store.UpsertCriterionStatus | packages/database/src/memory.ts:167-169 | stores that criterion's state and nothing else |
| Rooms.Transition | packages/core/src/rooms.ts:73-87 | stores the new state exactly when the edge is legal |
| Rooms.CreateInvite | packages/core/src/rooms.ts:93-133 | only a participant, only in DRAFT or INVITED: a single-use invite with the asked expiry under a new id, and DRAFT becomes INVITED; otherwise an error and no change |
| Rooms.LoadRedeemableInvite | packages/core/src/rooms.ts:163-182 | the invite, or the first reason why it cannot be redeemed |
| Rooms.RedeemInvite | packages/core/src/rooms.ts:184-242 | every refusal but the last leaves no trace; otherwise the invite is used up and the organization joins, and the room is NEGOTIATING or, from any state but INVITED, the call fails with both left behind |
| Rooms.ProposeContract | packages/core/src/rooms.ts:248-283 | the next version is stored and every approval voided |
| Rooms.ApproveContract | packages/core/src/rooms.ts:285-302 | the caller approves the latest version only, and the room may become READY |
| Rooms.SetParticipantPolicy | packages/core/src/rooms.ts:304-326 | refused in the frozen states, otherwise stored, and the room may become READY |
| Rooms.ConnectAgentToRoom | packages/core/src/rooms.ts:328-347 | only an owned connection is stored, and the room may become READY |
| Rooms.MaybeMarkReady | packages/core/src/rooms.ts:349-364 | READY exactly when a negotiating room has two participants who approve the latest version and have policy and agent |
| Rooms.StartRoom | packages/core/src/rooms.ts:370-382 | only from READY; ACTIVE with the start time in both places |
| Rooms.ChangeState | packages/core/src/rooms.ts:384-397 | pause, resume and cancel follow an edge or change nothing |
| Rooms.CloseRoom | packages/core/src/rooms.ts:400-427 | the room is CLOSED, by way of CANCELED where needed; all pending approvals are voided and all open invites revoked by the two loops |
| Rooms.QuarantineRoom | packages/core/src/rooms.ts:429-467 | QUARANTINED where an edge allows it, otherwise no change |
| Rooms.CompletionStatus | packages/core/src/rooms.ts:473-495 | satisfied and verified, over the evidence-required criteria of the latest contract |
| Rooms.ApproveCompletion | packages/core/src/rooms.ts:498-530 | only with completion proposed and everything verified; COMPLETED with the last approval |
| RoomMoves.EdgesByTarget | packages/shared/src/room.ts:17-33 | the edges of the state table, listed by where they lead |
| RoomMoves.CanComeToIff | packages/shared/src/room.ts:17-33 | a room can come from one state to another exactly if that is at a later stage, or both are among the four states of a working room |
| RoomMoves.HistoryNeverGoesBack | packages/core/src/rooms.ts:73-87 | over every run no stored state is behind an earlier one |
| RoomMoves.StepMoves | packages/core/src/rooms.ts:73-530 | every call moves a room only where a table of calls, source and target states says |
| RoomMoves.ProposedMeansEvidence | packages/core/src/pipeline.ts:375-404 | over every run a room with completion proposed has evidence for every required criterion |
| RoomMoves.ProposalIsDecidedByEvidence | packages/core/src/pipeline.ts:375-404 | a proposal that is let pass moves an ACTIVE room on exactly if the evidence is complete, and is rejected in the stream otherwise |
| RoomMoves.EvidenceIsClaimed | packages/core/src/pipeline.ts:331-374 | evidence for a criterion of the contract is recorded as claimed and never undoes a verification; any other changes nothing |
| RoomRecords.RedemptionSucceedsIff | packages/core/src/rooms.ts:163-242 | exactly when an invite can be redeemed, by whom and in which room |
| RoomRecords.InviteLetsInOnce | packages/core/src/rooms.ts:93-242 | a new invite lets in exactly one other organization, until its expiry, once |
| RoomRecords.ProposalSucceedsIff | packages/core/src/rooms.ts:248-283 | exactly when a contract can be proposed; it becomes the latest version, unapproved, and all else that anybody settled stands |
| RoomRecords.ContractApprovalSucceedsIff | packages/core/src/rooms.ts:285-364 | exactly the latest version can be approved; the room becomes READY exactly if nothing else is missing on either side |
| RoomRecords.PolicySucceedsIff | packages/core/src/rooms.ts:304-364 | exactly in which states a policy can be set, and when that makes the room READY |
| RoomRecords.MovingSucceedsIff | packages/core/src/rooms.ts:370-397 | exactly in which states a participant can pause, resume, cancel and start a room |
| RoomRecords.HaltLeaves | packages/core/src/runtime.ts:278-282 | halting pauses an ACTIVE room and changes nothing else |
| RoomRecords.ClosingLeaves | packages/core/src/rooms.ts:400-427 | the whole room after closing: the states stored, pending approvals INVALIDATED, open invites revoked, everything else as it was |
| RoomRecords.CompletionSucceedsIff | packages/core/src/rooms.ts:498-530 | exactly when completion can be approved, and that the room is completed exactly by the last approval |
| RoomRecords.VerificationLeaves | packages/core/src/approvals.ts:151-172 | a verification marks that record with the human's name and verifies its criterion, and nothing else |
| Pipeline.FilterFields | packages/core/src/pipeline.ts:92-98 | keeps exactly the entries whose names were requested, in order |
| Pipeline.SubmitCandidateEvent | packages/core/src/pipeline.ts:48-146 | for every candidate, sender and room state: which of unknown, dropped, blocked, held and allowed it is, and the exact room afterwards |
| Pipeline.HandleDenied | packages/core/src/pipeline.ts:148-209 | notes the block without its content, and quarantines at the third secret of one sender |
| Pipeline.HandleRequiresApproval | packages/core/src/pipeline.ts:211-289 | holds the body under its hash for the sender's organization for a day, and notes the request |
| Pipeline.PersistAllowedEvent | packages/core/src/pipeline.ts:291-329 | appends the event addressed to the other participant |
| Pipeline.ApplySideEffects | packages/core/src/pipeline.ts:331-404 | claimed evidence without downgrading a verified criterion; completion is proposed or rejected |
| Approvals.DecideApproval | packages/core/src/approvals.ts:23-148 | for every approval, organization, answer and time: one of nine outcomes, and the exact room afterwards |
| Approvals.VerifyEvidence | packages/core/src/approvals.ts:151-172 | the record is human-verified and its criterion VERIFIED |
| RoomEffects.NotDeniedIsVetted | packages/core/src/pipeline.ts:102-140 | what the policy does not deny is clean also by the labels it would get without a declaration |
| RoomEffects.SubmitEffect | packages/core/src/pipeline.ts:48-146 | every submission does nothing, blocks, holds or releases, and what is held or released is vetted |
| RoomEffects.DecideEffect | packages/core/src/approvals.ts:23-148 | every decision does nothing, settles, rejects or authorizes a pending approval |
| Provenance.SubmissionLeaves | packages/core/src/pipeline.ts:48-329 | a submission without a peer's request, a policy or a contract leaves nothing; one that may pass is said at once; one that must be held is held for a day and not said; any other is blocked |
| Provenance.EventsAreJustified | packages/core/src/pipeline.ts:102-145 | over every run an agent event was said at once by a submission that policy and contract let pass, or let go by a human of the right organization in time and named by an authorization |
| Provenance.ApprovalsWereHeld | packages/core/src/pipeline.ts:211-289 | over every run each approval was held by a submission whose body policy and contract wanted a human to see |
| Provenance.WhatIsLetGoWasHeld | packages/core/src/approvals.ts:77-124 | what a human let go is the body of an approval that was held before |
| DecisionRecords.DecisionIsRecorded | packages/core/src/approvals.ts:46-112 | a decision succeeds only for the right organization, on a pending approval, in time, and stores what it answers, by whom and when; every other approval stays |
| DecisionRecords.RefusalIsRecorded | packages/core/src/approvals.ts:23-102 | a refused decision says nothing and changes at most the status of a pending approval, to EXPIRED or INVALIDATED, exactly when |
| DecisionRecords.DecisionIsAnnounced | packages/core/src/approvals.ts:54-136 | a rejection is announced; an approval releases the body as held, for the one who asked and to the other participant, and then names that event |
| DecisionRecords.StatusHasOutcome | packages/core/src/approvals.ts:46-136 | over every interleaving an APPROVED approval was released or a running call still owes it, and a REJECTED one was announced or a running call owes that |
| DecisionRecords.OutcomeHasStatus | packages/core/src/approvals.ts:46-136 | over every interleaving what was announced as rejected is never APPROVED, and what was released never REJECTED |
| RoomLifecycle.StepKeepsInv | packages/core/src/rooms.ts:73-530 | every call keeps: legal state history, at most two participants of different organizations, single-use invites, a sealed room once CLOSED |
| RoomLifecycle.StoredStatesAreLegal | packages/shared/src/room.ts:17-33 | over every run each stored room state repeats the one before or follows an edge of TRANSITIONS |
| RoomLifecycle.PartiesAndInvites | packages/core/src/rooms.ts:184-223 | over every run at most two participants, of different organizations, and each invite redeemed at most once |
| RoomLifecycle.ClosingSucceeds | packages/core/src/rooms.ts:400-427 | a participant can close the room exactly in the states other than CLOSED, and nothing is then left to decide or redeem |
| RoomLifecycle.ClosedForever | packages/core/src/rooms.ts:400-427 | once CLOSED, whatever follows, turns in flight included: CLOSED, no pending approval, no redeemable invite, no further agent event |
| RoomLifecycle.RefusedRedemption | packages/core/src/rooms.ts:184-242 | a refused redemption leaves something behind exactly when only the final state check fails |
| RoomLifecycle.CanceledRoomIsJoined | packages/core/src/rooms.ts:204-224 | it happens: after a cancellation the refused organization is a participant |
| RoomContracts.AgreementOverRuns | packages/core/src/rooms.ts:248-364 | over every run versions count up from 1, an approval names the latest version, a negotiating room never meets the READY test, and a room that was ever READY is agreed and no longer negotiable |
| RoomContracts.FrozenFromReady | packages/core/src/rooms.ts:248-364 | from the first READY on the contract never changes and both sides keep approval, policy and agent |
| RoomContracts.AgreementIsBypassedIff | packages/core/src/rooms.ts:384-387 | a call puts an unagreed room to work exactly if it is a participant's pause of a quarantined unagreed room |
| RoomContracts.UnagreedWasQuarantinedEarly | packages/core/src/rooms.ts:429-434 | over every run an unagreed room that works or is quarantined went from NEGOTIATING to QUARANTINED |
| RoomContracts.SecretsBypassAgreement | packages/core/src/pipeline.ts:186-207 | it happens in every negotiating room with a contract: three blocked secrets, pause, resume |
| RoomStream.StepKeepsInv | packages/core/src/pipeline.ts:48-404 | every call keeps: numbered stream, clean and linked agent events, clean and hash-bound approvals, silence while the contract can change |
| RoomStream.AgentEventsAreClean | packages/core/src/pipeline.ts:102-145 | in every reachable stream an agent event, allowed or released, has no secret in its body, no hard-deny label, and no label but "general" that the latest contract forbids |
| RoomStream.ResponsesAnswerRequests | packages/core/src/pipeline.ts:78-100 | in every reachable stream a data response, released ones included, answers an earlier data request of the other participant and has no field beyond it |
| RoomStream.SequencesHaveNoGaps | packages/database/src/memory.ts:134-140 | in every reachable room events are numbered 1, 2, 3, ... under different ids |
| RoomStream.StreamOnlyGrows | packages/database/src/memory.ts:134-143 | no sequence of calls rewrites, removes or reorders an event |
| RoomStream.DecisionSucceedsIff | packages/core/src/approvals.ts:23-148 | in every reachable room the mismatch and secret refusals never happen: a decision succeeds exactly for the asking participant's own organization, while pending and unexpired |
| RoomStream.BlockedContentLeavesNoTrace | packages/core/src/pipeline.ts:157-175 | two candidates of one type blocked by one rule leave the same room behind, whatever they said |
| RoomStream.ThirdSecretStopsTheRoom | packages/core/src/pipeline.ts:186-207 | a blocked secret stops routing exactly when it is at least the sender's third |
| RoomCompletion.CompletedMeansVerified | packages/core/src/rooms.ts:497-530 | over every run, once COMPLETED: two participants of different organizations both approved, and every evidence-required criterion of the latest contract is verified with a human-verified record behind it |
| RoomCompletion.VerifiedForever | packages/core/src/pipeline.ts:356-366 | no sequence of calls undoes a verification |
| RoomCompletion.OnlyHumansVerify | packages/core/src/approvals.ts:150-165 | a call verifies a criterion exactly if it is a participant's verification of a record that names it |
| ApprovalRace.StepIsKept | packages/core/src/approvals.ts:23-148 | every single store call of every running call keeps the claim exclusive, outcomes settled and releases accounted for |
| ApprovalRace.NeverPendingAgain | packages/database/src/memory.ts:147-159 | over every interleaving a settled approval never returns to PENDING, stale writes included |
| ApprovalRace.DecidedAtMostOnce | packages/core/src/approvals.ts:46-136 | over every interleaving at most one outcome is announced and at most one event released per approval |
| ApprovalRace.ReleasedIsOriginal | packages/core/src/approvals.ts:77-124 | a released event carries the body held at creation, which hashes to the stored hash and has no secret |
| ApprovalRace.RejectedIsNeverReleased | packages/core/src/approvals.ts:46-75 | no approval is both rejected and released |
| ApprovalRace.ReleasesMatchAuthorizations | packages/core/src/approvals.ts:113-136 | when no call is running, released events and announced authorizations correspond exactly |
| ApprovalRace.UninterruptedIsAtomic | packages/core/src/approvals.ts:23-148 | the store calls of one decision, run without interruption, do exactly what the atomic call does |
| ApprovalRace.ApprovedBecomesExpired | packages/core/src/approvals.ts:37-40 | a run in which a stale write turns an approved and released approval EXPIRED |
| ApprovalRace.ReleasedIntoClosedRoom | packages/core/src/approvals.ts:103-124 | a run in which an approver that has won its claim releases its event after `closeRoom` has ended |
| LateWrites.AgentEventIff | packages/core/src/approvals.ts:113-124 | a step of a decision or a closing appends an agent event exactly if it is the release step of a won claim, in whatever state the room is |
| LateWrites.AgentEventPossibleIff | packages/core/src/approvals.ts:23-124 | from any reachable state some continuation of decisions and closings appends an agent event exactly if a decision has come to release, or has passed its checks on a still pending approval, or an approval is pending that can be approved: unexpired by the clock, unchanged, without a secret and asked for by a participant |
| LateWrites.LateReleasesIff | packages/core/src/approvals.ts:103-124 | once nothing is pending, a continuation of decisions and closings appends an agent event exactly if a decision that had come to release makes its step |
| LateWrites.ClosingSettles | packages/core/src/rooms.ts:412-417 | a closing call that runs from its list to its end leaves nothing pending, unless something new is held meanwhile |
| LateWrites.AfterClosingIff | packages/core/src/rooms.ts:400-427 | after a closing call has ended, with nothing new held, an agent event is appended exactly by a decision that had come to release by then |
| LateWrites.StatusChangesIff | packages/core/src/rooms.ts:413-417 | a step changes a decided status exactly if it is the stale write of a decision that found its copy expired or of a closing call that had listed it |
| LateWrites.DecidedEndsAs | packages/database/src/memory.ts:147 | over every run a decided approval keeps its status or ends EXPIRED or INVALIDATED |
| LateWrites.StatusCanChangeIff | packages/core/src/approvals.ts:29-40 | some continuation changes a decided status exactly if a running call still holds a pending copy of the approval |
| LateWrites.ApprovedBecomesInvalidated | packages/core/src/rooms.ts:413-417 | a run in which closing turns an approved and released approval INVALIDATED |
| TurnLimits.BudgetHolds | packages/core/src/orchestrator.ts:196-249 | with one driver at a time, across all calls, restarts and failures: never more than maxTurns turns, and the spend below the limit plus the last turn's cost |
| TurnLimits.SelectionsAlternate | packages/core/src/orchestrator.ts:134-154 | with two registered participants selections alternate, so their counts differ by at most one |
| StartTimes.ResumedRoomHasNoDuration | packages/core/src/rooms.ts:389-392 | a room resumed from READY is ACTIVE and never reaches the duration limit, whatever follows |
| StartTimes.QuarantinedRoomHasNoDuration | packages/core/src/rooms.ts:384-392 | neither does a room that was quarantined in READY or NEGOTIATING, paused and resumed |
| StartTimes.StartTimeAfter | packages/core/src/rooms.ts:370-382 | exactly a participant's start in READY sets the start time, to its own moment |
| StartTimes.StartTimeIsFirstStart | packages/core/src/rooms.ts:370-382 | over every run the start time is the moment of the first start that took effect, and absent exactly if none did |
| StartTimes.StartTimeNeverChanges | packages/core/src/rooms.ts:370-382 | once set it stays, whatever is called |
| StartTimes.DurationLimitsIff | packages/shared/src/room.ts:56-64 | over every run, within the other limits: the duration limit can be reached exactly if some start took effect |
| LoopDetection.RepetitionPauses | packages/core/src/orchestrator.ts:156-209 | with more than twice as many events in the window as different values, no turn begins and an ACTIVE room is left PAUSED |
| LoopDetection.DetectionIsRepetition | packages/core/src/orchestrator.ts:157-166 | a detected loop has a value that occurs three times in the window, or an explicit digest collision |
| LoopDetection.LoopDetectedIff | packages/core/src/orchestrator.ts:157-166 | a loop is detected exactly if of the last eight things that agents said three have the same digest |
| TurnBudget.TurnBeginsIff | packages/core/src/orchestrator.ts:196-215 | a turn begins exactly in a routing room below all four limits, a minute being 60000 milliseconds, without a loop, with a contract and somebody registered |
| TurnBudget.ReachedLimitPauses | packages/shared/src/room.ts:47-64 | a reached limit stops the turn before anyone is selected and pauses an ACTIVE room with a note that names the first such limit |
| TurnBudget.DrivenTurnBeginsIff | packages/core/src/orchestrator.ts:196-215 | over every driven run the same, by the counters and the limits the room was created with and the time since its first effective start |
| TurnBudget.NoTurnAfterDuration | packages/core/src/orchestrator.ts:201-205 | over every driven run no turn begins at or after the first start plus the duration limit |
| TurnBudget.FirstSelection | packages/core/src/orchestrator.ts:134-154 | the first selection is not whoever spoke last, and a customer if none of the registered has spoken |
| TurnBudget.BeginningUsesGuidance | packages/core/src/orchestrator.ts:211-215 | a turn that begins remembers who runs and uses up that participant's guidance |
| TurnBudget.LastDenialGuides | packages/core/src/orchestrator.ts:240-247 | the last denial among a turn's submissions leaves its rule as guidance |
| TurnBudget.NoDenialGuides | packages/core/src/orchestrator.ts:240-247 | submissions that are not denied leave the guidance as it is |
| Orchestrator.Perform | packages/core/src/rooms.ts:93-530 | every service call, run on the store, does what its function says |
| Orchestrator.PauseBecause | packages/core/src/orchestrator.ts:168-190 | only an ACTIVE room is paused, with a note of the reason |
| Orchestrator.Halt | packages/core/src/runtime.ts:278-282 | only an ACTIVE room is paused |
| Orchestrator.ReportFailure | packages/core/src/runtime.ts:227-245 | appends one platform event |
| Orchestrator.RoomOrchestrator.Register | packages/core/src/orchestrator.ts:47-52 | a known participant's runtime is replaced in its place, a new one added; ids stay distinct |
| Orchestrator.RoomOrchestrator.ChooseNext | packages/core/src/orchestrator.ts:134-154 | not whoever ran last; on a first turn not whoever spoke last; and a customer opens: for every stream and every set of runtimes |
| Orchestrator.RoomOrchestrator.DetectLoop | packages/core/src/orchestrator.ts:157-166 | the counting map finds a digest that occurs three times in the last eight agent events exactly when there is one |
| Orchestrator.RoomOrchestrator.BeginTurn | packages/core/src/orchestrator.ts:196-215 | a room that does not route, an exceeded budget, a detected loop and nobody to run stop the turn, the second and third with a pause; otherwise the next participant is selected and remembered |
| Orchestrator.RoomOrchestrator.FinishTurn | packages/core/src/orchestrator.ts:228-249 | one turn and its cost are counted on the room as it is now, then the first four candidates are submitted |
| Orchestrator.RoomOrchestrator.RunTurn | packages/core/src/orchestrator.ts:196-249 | a whole turn, with anything served while the adapter is called: exactly the room, orchestrator state and outcome of the two parts around it |
| TurnLimits.TurnCounts | packages/core/src/orchestrator.ts:201-238 | a turn that makes progress adds exactly one turn and was below maxTurns, whatever is served meanwhile; any other adds none |
| TurnRuns.TurnIsRun | packages/core/src/orchestrator.ts:196-249 | what a whole turn leaves is what its service calls leave, in their order: a pause or none, those served meanwhile, one account, up to four submissions |
| TurnRuns.FinishOpsAre | packages/core/src/orchestrator.ts:228-249 | after the answer one account of its cost, then its first four candidates, each once and in order |
| TurnRuns.TurnAccounts | packages/core/src/orchestrator.ts:196-249 | the calls of a turn account exactly one turn if it makes progress and none otherwise |
| TurnRuns.HaltedIsNotActive | packages/core/src/orchestrator.ts:196-215 | with somebody registered, a turn that stops leaves a room that is not ACTIVE |
| TurnRuns.DrivenIsRun | packages/core/src/orchestrator.ts:196-257 | whatever a driven room goes through, its records are what a run of service calls leaves |
| TurnRuns.ClosedWhileDriven | packages/core/src/orchestrator.ts:228-247 | once CLOSED, also while an adapter is being called: CLOSED and sealed, and no further agent event, whatever the driver does |
| TurnRuns.DrivenEventsAreClean | packages/core/src/orchestrator.ts:240-247 | in every room driven from its creation on, every agent event is clean of secrets and forbidden labels |
| Orchestrator.RoomOrchestrator.RunLoop | packages/core/src/orchestrator.ts:252-257 | terminates by maxTurns minus turns even without an iteration limit, counts every turn, and leaves what a run of service calls leaves |
| Runtime.DriveRoom | packages/core/src/runtime.ts:141-220 | at most maxTurnsPerPickup turns, each counted once and within the budget; no turn without two participants with agents, exactly then a halt for an unusable one; each other reason to end says what it found: no progress, that the room is not ACTIVE; idle, that the last two turns added no event; the room left is that of a run of service calls |

## Left out

- Audit records, checkpoints and security alerts written inside room calls: the chain is modelled on its own, and notifications as the outbox.
- SHA-256, HMAC checkpoint signatures and the detectors' regular expressions: the digest and detectors are arbitrary functions.
- Schema validation: a candidate is a typed body or invalid. Provenance, risk level, guidance wording and reason texts are not modelled; guidance is the rule of the denial.
- Organizations, users and sessions: a call names the participant or the organization it acts for, a redemption says whether the caller has the bound address, and connecting an agent says whether it is owned.
- Numbers in canonical JSON are integers written in plain decimal; fractions, exponents, NaN and lone surrogates are not modelled. The depth and shape of values are unrestricted.
- Times are integers, and a room call has one time throughout.
- Several rooms in one store: every record in the model belongs to one room, which no room call leaves. In the store, listing by room is therefore reading the field.
- Races on whole-room writes (a snapshot of the room stored after an await): room calls are atomic, except that a turn is split at the adapter call; only approvals and Postgres appends are modelled finer.
- Rooms.QuarantineRoom: the alerts and notifications to each participant's organization are not modelled.
- Pipeline.HandleDenied: the security alert and the wording of the guidance are not modelled.
- Pipeline.HandleRequiresApproval: risk level, reason text and the notification to the deciding humans are not modelled.
- ApprovalRace.StepIsKept: the state change of `closeRoom` is two steps and the side effects of a release are one, because neither touches approvals or outcomes; revoking invites is left to the atomic call.
- TurnLimits.BudgetHolds: assumes one driver per room, because `scan` awaits between its check and its add, so `scan` and `runOnce` do not exclude each other.
- Orchestrator.RoomOrchestrator.BeginTurn: the input built for the adapter (visible events, open requests, remaining budget) is not modelled; the adapter's answer is arbitrary.
- Orchestrator.RoomOrchestrator.RunLoop: states that the final room comes from a run of service calls, not which; RunTurn states the exact room after each turn.
- Runtime.DriveRoom: states the turns, the reason for stopping and that the final room comes from a run of service calls, not which; polling, the quiesced markers and adapter connections are not modelled; whether a connection can be used is a parameter.
- Outbox.OutboxGuarantee: ticks of one dispatcher do not overlap; two dispatchers on one table are not modelled.
- RoomStream.AgentEventsAreClean: "general" is exempt, because a body held with a declared label is relabelled without it when it is released.
- HTTP routes, idempotency caching, streaming, the web interface, agent adapters, templates, members and onboarding.
