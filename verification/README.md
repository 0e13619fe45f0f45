# Durable agent execution: a Dafny model

The repository runs model-driven agents as durable workflows. A workflow is deterministic;
its activities may crash, be repeated, or go on running after they have lost their lease;
everything they decide is written in short database transactions. This project models that
protocol as state machines over those transactions and proves what every interleaving keeps.
It also models five self-contained parts: deletion of memory sources, identity binding and
invites, the log tailer, the ranking metrics and the capability tool names.

`dafny verify dfyconfig.toml` checks everything.

## How the files fit together

The execution protocol has four layers.

1. **Leases, segments, waits.** `LeasePlane` has each transaction of the store as a function
   on table contents, and the steps that may interleave. `LeaseSafety` proves what every run
   keeps. `LeaseStore` is the same plane as a class whose methods update the tables in place,
   each proved against its function. `Fencing` reduces the plane to what the layers above see
   of one execution (token, liveness, standing, memory context) and proves that every lease run is a run of
   that smaller machine.
2. **Operations and transcript.** `Operations` and the class in `OperationStore` have the
   operation status machine, attempts, receipts and the event log.
3. **The tool protocol.** `ToolProtocol` is `tool_execution` with every database call a
   separate step, including calls that an abandoned thread commits later. `ToolSafety` proves
   the at-most-once results, `ToolUncertain` what "uncertain" settles, and `ToolTruth` what a
   reconciler's answers are good for.
4. **Workflows.** `DurableWorkflow` runs any deterministic workflow on the operation plane;
   `CrashRefinement` proves once, for all of them, that the committed transcript is that of a
   run without crashes. `TurnLoop`, `TurnTranscript`, `ReactWorkflow`, `RepeatedCalls`,
   `PlanWorkflow` and `PlanRuns` instantiate it: each workflow is a method with the source's
   loops, proved equal to a fold over the results received, and the theorems are about that
   fold. `OperationIds`, `RunIds` and `Text` are about operation ids as strings. `SegmentLoop`
   and `DurableWaits` are the retry loop around one activity and the wait for an approval.
   `Admission`, `BranchAttempts`, `DelegationRounds` and `DelegationStore` are child executions.

The other parts are `MemoryForest`, `MemoryGovernance`, `MemoryRuns`, `MemoryService`;
`IdentityTables`, `IdentityRuns`, `IdentityService`; `JsonlTail` (one file), `JsonlHistory` (the
events), `JsonlScans` (all files, over runs of scans), `JsonlReader` (the class);
`RankingMetrics`; `ToolNames`. `Base` holds what several modules share.

Model and tool answers, provider failures, signals and the passing of time are arbitrary.
A transaction is atomic and rolls back on an exception; the database clock never goes back.

## Where the code does less than its words

The model follows the code. Each item names the condition under which the property holds.

- A reconciler may answer "not executed" truthfully and the tool is still called twice, by an
  attempt that lost its lease after its last check: `ToolTruth.TruthIsNotEnough` meets the
  bound of `ToolSafety.DispatchBound`. Given to the lease holder, a true answer is safe if and
  only if no attempt stands between that check and the call: `ToolTruth.NotExecutedIsSafeExactly`.
  The shipped default reconciler never gives that answer.
- The release that ends a segment can be cancelled (src/agent_workflows/segments.py:81-82);
  it is not shielded as the cleanups in src/research_activities/runtime.py:275 and
  src/agent_workflows/capability.py:58 are. A call cancelled there ends with its last segment
  unreleased, holding the lease or able to take it late: `SegmentLoop.CancelledReleaseKeepsLease`.
  After the end the segments are gone if and only if some release of the last one committed:
  `SegmentLoop.EndsReleasedExactly`.
- So can the `finish_wait` of a durable wait (src/agent_workflows/segments.py:157-165). Its row
  then stays waiting, and no segment of the execution is ever acquired again:
  `DurableWaits.CancelledFinishStrandsExactly`.
- "Uncertain" is final only if the attempt that wrote it left no completion running in a
  thread: `ToolUncertain.UncertainIsFinalExactly`.
- A wait excludes a lease except against the segmentless `acquire_lease`:
  `LeaseSafety.WaitExclusionExactly`.
- A decision that repeats an older tool call id is answered with an older transcript version,
  and the run can no longer commit: `RepeatedCalls.TurnEndsExactly`.
- A retry round of a delegation accepted before any first round records a delegation without
  executions: `BranchAttempts.PrepareCoversExactly`. The workflow never asks for that:
  `DelegationRounds.DelegationIsCovered`.
- A preparation of branches that committed, lost its answer and was refused when repeated
  leaves branches that nobody runs, and while one of them has not ended the report is refused
  too: `DelegationRounds.ReportsExactly` and `DelegationRounds.LostPreparationStrands`.
- The delete created for a descendant carries no evidence, so nothing orders it after the
  deletes below it. Over later runs it is verified in that order if and only if everything
  below was under a verified delete before the command: `MemoryRuns.ChildDeleteIsOrderedExactly`.
  The delete a command itself issues is always ordered: `MemoryRuns.DeleteIsVerifiedLast`. Only
  the schema and the queries know a source's parent, no service inserts one; the run of
  `MemoryRuns.LineDeletesOvertake` registers its sources by that step of the schema.
- A notification during the last probe is overlooked when that probe answers after the
  deadline: `DurableWaits.LateNotificationIsOverlookedExactly`.
- A log file rewritten between two scans to at least its old length, on the same inode, is taken
  for an appended one: `JsonlTail.SeenExactly` and `JsonlTail.RewriteIsUnseen`.
- A consolidation moves the challenge to the target account while it is still pending, so a
  pending challenge of the target violates the partial unique index
  (persistence/migrations/012_self_service_identity.sql:44-45) and the consolidation rolls back:
  `IdentityRuns.ConsolidatesExactly`.
- Accounts that registration and binding create always have a Web identity, so only an
  account that came from elsewhere with a QQ identity alone is ever consolidated into:
  `IdentityRuns.MergesNeedAQqOnlyAccount`.

## Model

| member | source | states |
|---|---|---|
| LeaseSafety.TokenNeverDecreases | src/agent_activities/store.py:93-165 | over every interleaving, an execution's fencing token never decreases |
| LeaseSafety.DeadTokenStaysDead | src/agent_activities/store.py:93-165 | a token that stopped being live (released, expired, superseded, closed) is not live in any later state |
| LeaseSafety.TokenIdentifiesOwner | src/agent_activities/store.py:93-121 | while a token is live its owner never changes: every change of ownership raises the token |
| LeaseSafety.ReleaseIsFinal | src/agent_activities/store.py:471-549 | once a release commits, with or without an acquisition before it, no delayed or repeated acquisition of that segment succeeds and it never owns the lease |
| LeaseSafety.WaitExclusionExactly | src/agent_activities/store.py:471-598 | a step keeps live leases and waiting waits apart if and only if it is not a segmentless acquisition during a wait |
| LeaseSafety.WaitExclusion | src/agent_activities/store.py:471-598 | over whole runs without that step, no execution has both a live lease and a waiting wait |
| LeaseSafety.FinishedWaitIsFinal | src/agent_activities/store.py:577-598 | a finished wait keeps its outcome and its id never returns to waiting |
| LeaseStore.AgentLeaseStore.Acquire | src/agent_activities/store.py:93-121 | inserts the row if absent, then keeps the token for the same live owner, raises it for a new one, or refuses with the fault and changes no execution |
| LeaseStore.AgentLeaseStore.AcquireSegment | src/agent_activities/store.py:471-511 | outcome and all tables as specified, the insert undone on refusal; keeps owners open and waits unleased |
| LeaseStore.AgentLeaseStore.ValidateAndRenewLease | src/agent_activities/store.py:123-153 | outcome and tables as specified; keeps both invariants |
| LeaseStore.AgentLeaseStore.ReleaseSegment | src/agent_activities/store.py:513-549 | outcome and tables as specified; on success the segment is buried and owns nothing |
| LeaseStore.AgentLeaseStore.BeginWait | src/agent_activities/store.py:551-575 | outcome and tables as specified; on success the wait exists and no lease is live |
| LeaseStore.AgentLeaseStore.FinishWait | src/agent_activities/store.py:577-598 | reports whether the run is active and finishes only a waiting row, as cancelled when it is not |
| Fencing.AdmitsIsTheRowCheck | src/run_domain/execution.py:66-87 | the small fence admits a token exactly when the row checks of `assert_execution_fence`, the memory context included, pass; without the memory context, exactly when `validate_and_renew_lease` succeeds |
| Fencing.LeaseRunIsFenceRun | src/agent_activities/store.py:93-165 | every run of the lease plane is a run of the small fence: tokens rise, dead tokens stay dead, closed stays closed |
| Fencing.FencesOnlyAdvance | src/agent_activities/store.py:93-165 | from executions as inserted, between any two moments of any run a dead token stays dead and a closed standing closed |
| Operations.CallsKeepTheLog | src/agent_activities/store.py:226-441 | any transaction under any token, stale or not, keeps attempt numbers increasing and at most one event per operation, and only extends the log |
| Operations.CallsAppendAtMostOnce | src/agent_activities/store.py:394-441 | a transaction appends only as an admitted completion at its expected version, one event, together with the operation's result |
| Operations.ReplayReturnsOriginalSequence | src/agent_activities/store.py:394-441 | repeated after anything else with the operation's one expected version, a completion appends nothing and answers the first sequence |
| Operations.MessagesExtend | src/agent_activities/store.py:368-392 | what is loaded at a version depends only on the events up to it |
| OperationStore.AgentOperationStore.BeginOperation | src/run_domain/results.py:31-77 | row, attempt and answer as specified: a completed result replays, an unresolved intent is shown or refused, never erased |
| OperationStore.AgentOperationStore.RecordOperationIntent | src/agent_activities/store.py:268-280 | outcome and rows as specified, under the fence |
| OperationStore.AgentOperationStore.MarkOperationUncertain | src/agent_activities/store.py:282-291 | outcome and rows as specified, under the fence |
| OperationStore.AgentOperationStore.FailOperation | src/agent_activities/store.py:257-266 | outcome and rows as specified: anything but a completed row is overwritten |
| OperationStore.AgentOperationStore.CompleteOperation | src/run_domain/results.py:260-313 | outcome and rows as specified, with the receipt of the latest attempt |
| OperationStore.AgentOperationStore.CompleteOperationWithEvent | src/agent_activities/store.py:394-441 | compare-and-swap on the version, one event, one result; the events stay numbered 1..version |
| OperationStore.AgentOperationStore.Receive | src/run_domain/results.py:113-199 | the disposition of a late result, its checks in the code's order, and the one case in which it completes the operation |
| OperationStore.AgentOperationStore.LoadMessages | src/agent_activities/store.py:368-392 | the loop over the event rows returns the messages of the first `version` events in sequence order, and that version |
| ToolSafety.DispatchBound | src/agent_activities/runtime.py:739-1225 | over all attempts, crashes, expiries and zombies, non-idempotent calls are at most one more than the reconciler's "not executed" answers |
| ToolSafety.DispatchedAtMostOnce | src/agent_activities/side_effects.py:33-35 | with the default reconciler a non-idempotent operation is dispatched at most once in every run |
| ToolUncertain.UncertainIsFinalExactly | src/agent_activities/runtime.py:1123-1201 | after any run from the start, the row that an attempt marks stays uncertain in every later run if and only if that attempt left no completion and no late receipt running |
| ToolUncertain.MarkingEndsDispatchExactly | src/agent_activities/runtime.py:1002-1005 | after the mark, no later run dispatches if and only if no attempt stands between its last lease check and the call |
| ToolTruth.StaysOnceExactly | src/agent_activities/runtime.py:912-1225 | in any reachable state of a run that may still progress, everything that can follow without a further "not executed" makes at most one call if and only if at most one was made or may still be made |
| ToolTruth.NotExecutedIsSafeExactly | src/agent_activities/runtime.py:912-947 | a true "not executed" given to the lease holder leads to at most one call in every later run if and only if no attempt stands between its last lease check and the call |
| ToolTruth.TruthInTimeIsEnough | src/agent_activities/runtime.py:912-947 | over whole runs from the start, where each such answer is true and given with no attempt past its last check, the tool is called at most once |
| ToolTruth.TruthIsNotEnough | src/agent_activities/runtime.py:912-947 | from every plane where the operation is new, a run with only true answers calls the tool twice |
| CrashRefinement.TranscriptIsCrashFree | src/agent_activities/store.py:293-441 | for any deterministic workflow and any schedule, some crash-free run committed exactly this transcript, and the results received are a prefix of it; a decision and its paired receipt may be split by a crash |
| CrashRefinement.NoWorkIsWasted | src/agent_activities/runtime.py:449-737 | an attempt that holds the lease past its checks computes on exactly the committed results |
| TurnLoop.RunTurns | src/agent_workflows/react.py:87-199 | the nested loops and the forced final decision end where the fold over the results ends |
| TurnLoop.Decide | src/application/main_response.py:146-230 | one decision and the receipt paired with a direct response |
| TurnLoop.CallTools | src/agent_workflows/react.py:134-159 | the tool calls of one decision, in order, threading the version |
| TurnLoop.DecisionsSpendBudget | src/agent_workflows/agent_step.py:30-130 | every decision spends the loop's budget and nothing restores it |
| TurnLoop.AwaitedIsNew | src/agent_workflows/react.py:87-199 | what the loop awaits it has not issued before, given distinct call ids in each decision |
| TurnTranscript.TurnsGrow | src/agent_workflows/react.py:87-199 | each awaited result extends the transcript by the grammar: a decision, its tool results in order, the next turn |
| ReactWorkflow.Run | src/agent_workflows/react.py:81-199 | the workflow method suspends with exactly what the fold over its results awaits |
| ReactWorkflow.TranscriptHasShape | src/agent_workflows/react.py:58-199 | under every schedule the transcript is the context and then turns in order, and the results received are its first events, numbered |
| ReactWorkflow.NeverConflicts | src/agent_workflows/react.py:87-199 | with distinct call ids a crash-free run is never stuck: any answer can be committed at the next version |
| ReactWorkflow.RunsAreBounded | src/agent_workflows/react.py:87-199 | at most `max_turns` decisions and the forced one, and `tool_turns` equals the tool turns taken |
| RepeatedCalls.CurrentExactly | src/agent_workflows/react.py:134-159 | a new command meets the transcript at its version if and only if the last result was the newest event |
| RepeatedCalls.TurnEndsExactly | src/agent_workflows/react.py:134-159 | a turn can end with the next decision committable if and only if its call ids thread |
| RepeatedCalls.DistinctIdsThread | src/agent_workflows/react.py:134-159 | distinct call ids always thread |
| RepeatedCalls.AnOlderRepeatDoesNot | src/agent_workflows/react.py:134-159 | the ids a, b, a do not |
| PlanWorkflow.Run | src/agent_workflows/plan_execute.py:31-217 | plan, steps, evaluations, replanning and synthesis suspend exactly where the fold over the results stands |
| PlanWorkflow.Evaluate | src/agent_workflows/plan_execute.py:120-164 | the verdict on a step: fail, replan within the limit, finish early or go on |
| PlanWorkflow.RunSteps | src/agent_workflows/plan_execute.py:65-176 | the steps of one plan, each followed by its evaluation |
| PlanWorkflow.RunStep | src/agent_workflows/agent_step.py:28-130 | one bounded step loop, as the plan sees it |
| PlanWorkflow.ResultsSpendWork | src/agent_workflows/plan_execute.py:61-217 | every result spends what is left for its kind (plans, steps, decisions, synthesis) and nothing restores it |
| PlanRuns.ActivitiesAreBounded | src/agent_workflows/plan_execute.py:31-217 | for every oracle: at most 4 plans, 32 evaluations, 288 step decisions and 1 synthesis, 325 activities in all |
| PlanRuns.RunsEnd | src/agent_workflows/plan_execute.py:31-217 | every run ends: at most 651 results and the tool calls its decisions asked for |
| PlanRuns.ToolTurnsAreExact | src/agent_workflows/plan_execute.py:61-217 | `tool_turns` equals the tool turns taken over all steps and plans |
| PlanRuns.NeverConflicts | src/agent_workflows/plan_execute.py:31-217 | ids never repeat, each is issued with the transcript's length as its expected version, and any answer can be committed |
| PlanRuns.CommitsAreBounded | src/agent_workflows/plan_execute.py:31-217 | the same bounds hold for what is ever committed, under every schedule of crashes and stale attempts |
| OperationIds.ParseRender | src/agent_workflows/plan_execute.py:49-192 | every operation id reads back to its operation, whatever characters the execution and call ids hold |
| OperationIds.RenderInjective | src/agent_workflows/agent_step.py:44-109 | different operations of one execution have different ids |
| RunIds.ReactIdsNeverRepeat | src/agent_workflows/react.py:67-181 | the ids one ReAct run issues are pairwise distinct strings |
| RunIds.PlanIdsNeverRepeat | src/agent_workflows/plan_execute.py:49-192 | so are those of a plan-and-execute run, across turns, steps, plan versions and kinds |
| SegmentLoop.NoLeaseBetweenAttempts | src/agent_workflows/segments.py:47-100 | during a backoff none of the call's segments owns or can acquire the lease, delayed acquisitions included; at any time, the end included, the same holds of every segment but the last |
| SegmentLoop.EndsReleasedExactly | src/agent_workflows/segments.py:64-86 | when the call has ended, all its segments are buried if and only if some release of the last one committed: its own, or a repeat of the request |
| SegmentLoop.ReleasedEndIsFinal | src/agent_workflows/segments.py:64-86 | after an end with that release, no segment of the call owns or acquires the lease in any later state |
| SegmentLoop.CancelledReleaseKeepsLease | src/agent_workflows/segments.py:81-82 | cancelled at its release, a call ends with its segment holding the lease, or with a delayed acquisition that takes it after the end |
| SegmentLoop.AttemptsAreBounded | src/agent_workflows/segments.py:47-100 | at most `maximum_attempts` segments, and at most one dispatched activity in each |
| SegmentLoop.EveryAttemptHasAFreshFence | src/agent_workflows/segments.py:65-82 | each attempt's activity carries a strictly higher token than every earlier attempt's |
| SegmentLoop.StartKeepsInv | src/agent_workflows/segments.py:54-64 | a call starts in the invariant those results are carried by |
| DurableWaits.NeverSleepsThrough | src/agent_workflows/segments.py:112-166 | for every interleaving, a notification after a probe began leaves the sleeper free to wake at once, into a probe that accounts for it |
| DurableWaits.SleepIsBounded | src/agent_workflows/segments.py:138-151 | without notifications a sleep lasts at most 30 seconds and never past the deadline |
| DurableWaits.LateNotificationIsOverlookedExactly | src/agent_workflows/segments.py:131-151 | a notified probe that answers nothing is followed by another if and only if it answers before the deadline |
| DurableWaits.ValueIsAuthoritative | src/agent_workflows/segments.py:112-166 | a wait returns a value only if a probe produced it and the run was active when the wait was finished |
| DurableWaits.DeadlinesAreKept | src/agent_workflows/segments.py:138-144 | only a probed wait times out, only an unprobed one resumes at its deadline, and neither does so early |
| DurableWaits.ApprovalIsAuthoritative | src/agent_workflows/tool_execution.py:77-170 | the approved execution starts only after the status activity answered `approved`, never on a signal or a deadline |
| DurableWaits.NothingRunsDuringWait | src/agent_activities/store.py:471-598 | while the workflow waits, no segment of its execution can be acquired, whatever else commits |
| DurableWaits.CancelledFinishStrandsExactly | src/agent_workflows/segments.py:157-165 | after a cancelled `finish_wait` no segment of the execution is ever acquired until that wait is finished; and where nothing but the wait was in the way, that is so if and only if it ended by such a cancellation |
| DurableWaits.DurableWait.Notify | src/agent_workflows/segments.py:116-118 | bumps the generation for its own id only; a waiting workflow is then notified |
| DurableWaits.DurableWait.Begin | src/agent_workflows/segments.py:120-135 | the wait row and the first turn of the loop, or the failure that ends the wait |
| DurableWaits.DurableWait.Answer | src/agent_workflows/segments.py:131-151 | a value ends the wait, otherwise deadline or sleep; a notified sleeper may wake |
| DurableWaits.DurableWait.WakeUp | src/agent_workflows/segments.py:145-151 | a sleeper that may wake takes the next turn of the loop |
| DurableWaits.DurableWait.Finish | src/agent_workflows/segments.py:157-166 | finishes the row, and returns a value only on an active run |
| Admission.AdmissionIsBounded | src/agent_activities/capabilities.py:272-337 | over every interleaving with lease, status and closing steps, active subagents and capability executions stay within global and account limits, one capability per parent |
| Admission.RootsAloneAreWithin | src/agent_activities/capabilities.py:272-337 | a fleet of root executions alone meets the limits and the invariant they are carried by |
| Admission.EndedStaysEnded | src/agent_activities/delegation.py:332-369 | a child execution that ended is never revived |
| BranchAttempts.AttemptsAreBounded | src/agent_activities/delegation.py:205-320 | at most two executions per branch key, the second only while the first is failed retryably; ended branches never change |
| BranchAttempts.SucceededIsNeverRerun | src/agent_workflows/delegation.py:91-102 | a branch that succeeded is never run again |
| BranchAttempts.PrepareCoversExactly | src/agent_activities/delegation.py:145-320 | a preparation keeps every brief covered by an execution unless it is a retry round accepted before any first one |
| DelegationRounds.DelegationIsCovered | src/agent_workflows/delegation.py:39-115 | after any run of the workflow's two rounds, with lost answers, refusals, cancellations and late completions, a recorded delegation has an execution for every brief |
| DelegationRounds.ReportsExactly | src/agent_workflows/delegation.py:39-115 | whenever the workflow comes to its report, that is refused if and only if a preparation was lost, its repetition refused, and the history holds no accepted completion or cancellation of a branch inserted in that round; otherwise it says success if and only if the delegation was recorded and every required brief's last attempt succeeded |
| DelegationRounds.UnendedAreOpen | src/agent_activities/delegation.py:205-369 | over any run, the branches that have not ended are exactly those some accepted preparation inserted and no accepted completion or cancellation ended |
| DelegationRounds.KeptAnswersReport | src/agent_workflows/delegation.py:91-115 | where no preparation loses its answer the report is never refused |
| DelegationRounds.LostPreparationStrands | src/agent_activities/delegation.py:141-143 | from every root without a delegation, a committed preparation whose repetition is refused leads to a report that is refused |
| DelegationStore.DelegationActivities.Prepare | src/agent_activities/delegation.py:145-320 | reply and rows as specified, the inserts undone when refused; keeps at most two attempts per key |
| DelegationStore.DelegationActivities.SelectBranches | src/agent_activities/delegation.py:205-225 | the loop that picks the branches of a round |
| DelegationStore.DelegationActivities.InsertBranches | src/agent_activities/delegation.py:276-318 | the inserting loop succeeds if and only if no row collides, and then adds exactly the new ones |
| DelegationStore.DelegationActivities.FinishBranch | src/agent_activities/delegation.py:332-369 | reply and rows as specified: terminal rows keep, cancelled on an inactive run, success only with a receipt |
| DelegationStore.DelegationActivities.Report | src/agent_activities/delegation.py:412-452 | the loop over the briefs computes the aggregate, its two errors included |
| MemoryForest.QueryYieldsDescendants | src/application/memory_governance.py:200-204 | the recursive query, which has no DISTINCT, yields every descendant exactly once and nothing else |
| MemoryGovernance.CommandMatchesGeneration | src/application/memory_governance.py:142-240 | a command is accepted only for a new key at the stored generation, which it raises by one; any other leaves everything unchanged |
| MemoryGovernance.ForgetsExactly | src/application/memory_governance.py:185-230 | exactly the source and all its transitive descendants join the forgotten ones on an accepted delete, and nothing does otherwise |
| MemoryGovernance.AcceptMovesSources | src/application/memory_governance.py:186-221 | the command's source moves one generation, descendants not yet forgotten one, no other source moves |
| MemoryGovernance.AcceptReports | src/application/memory_governance.py:197-240 | the receipt lists each covered source once and, for each descendant, its current delete action |
| MemoryRuns.DeleteIsVerifiedLast | src/application/memory_governance.py:349-357 | in every later state the covered sources are still forgotten by the same deletes, and the command's delete is verified only if every descendant's is |
| MemoryRuns.AcceptedCommandsReplay | src/application/memory_governance.py:151-165 | resubmitted at any later time, an accepted command returns its receipt and changes nothing |
| MemoryRuns.OneCommandPerGeneration | src/application/memory_governance.py:167-168 | of two commands naming one generation of a source at most one is ever accepted |
| MemoryRuns.StepKeepsInv | src/persistence/memory.py:67-249 | registration, freeze, command, reconciliation and saved results keep the source links and verified evidence, and undo no forgotten source, result or receipt |
| MemoryRuns.ChildDeleteIsOrderedExactly | src/application/memory_governance.py:197-230 | over every run after an accepted delete, the delete it created for a descendant is verified only with everything below that descendant verified, if and only if all of that was under verified deletes before the command |
| MemoryRuns.ChildDeletesMayOvertake | src/application/memory_governance.py:213-225 | whenever a deleted child has a child of its own, some run verifies the upper delete first |
| MemoryRuns.LineDeletesOvertake | src/application/memory_governance.py:213-225 | a run from empty tables that does so, its sources inserted as the schema allows |
| MemoryService.MemoryGovernanceService.Command | src/application/memory_governance.py:142-240 | reply and tables as specified, checks in the code's order |
| MemoryService.MemoryGovernanceService.Accept | src/application/memory_governance.py:185-240 | the writes of an accepted command |
| MemoryService.MemoryGovernanceService.DeleteAll | src/application/memory_governance.py:205-230 | the loop over the locked descendants, reusing a running delete or issuing one |
| IdentityRuns.RunsConserve | src/account/identity_binding_service.py:157-358 | over every run: one active Web and one active QQ identity per account, one pending challenge per account, and every binding and session still there, moved at most once, to where its account was merged |
| IdentityRuns.StartsEmpty | persistence/migrations/012_self_service_identity.sql:18-47 | empty tables meet the invariant, and every active account in them has a Web identity |
| IdentityRuns.MergesAreFinal | src/account/identity_binding_service.py:275-358 | a merged account stays disabled, without bindings or sessions; its target keeps both identities and is never merged: chains have length one |
| IdentityRuns.ConsumedIsBound | src/account/identity_binding_service.py:157-273 | whichever branch completes a code, the sender is bound to the account in the reply |
| IdentityRuns.CompletedCodesReplay | src/account/identity_binding_service.py:174-187 | a completed code answers its sender with the same account at any later time, and nobody else |
| IdentityRuns.ConsolidatesExactly | src/account/identity_binding_service.py:206-358 | a live code consolidates if and only if source and target are active, the source is an empty Web account with a credential, and the target has neither Web identity nor pending challenge |
| IdentityRuns.MergesNeedAQqOnlyAccount | src/account/registration_service.py:54-101 | where every active account has a Web identity, as after any run from empty tables, nothing is ever consolidated |
| IdentityRuns.InvitesAreCounted | src/account/invite_service.py:100-128 | the accounts an invite provisioned equal its redemption count, within its maximum |
| IdentityService.IdentityDatabase.Register | src/account/registration_service.py:54-101 | reply and tables as specified, every check before the first write; keeps the invariant of `IdentityRuns` |
| IdentityService.IdentityDatabase.Open | src/account/identity_binding_service.py:75-113 | the loop over drawn codes: earlier pending challenges cancelled, a code in use tried again; keeps that invariant |
| IdentityService.IdentityDatabase.Consume | src/account/identity_binding_service.py:157-204 | reply and tables as specified; an expired code is cancelled although the call fails; keeps that invariant |
| IdentityService.IdentityDatabase.ConsumePending | src/account/identity_binding_service.py:206-273 | binds, keeps or consolidates, or refuses without a write |
| IdentityService.IdentityDatabase.Consolidate | src/account/identity_binding_service.py:328-353 | the writes of a consolidation: sessions, binding, challenges, account |
| JsonlTail.TailRefinesWholeRead | scripts/operations/observability-viewer.py:213-254 | for any sights of a path, the emitted records are those of whole reads of its generations as the reader takes them, and the state is the offset and the bytes after the last newline |
| JsonlTail.SeenExactly | scripts/operations/observability-viewer.py:221-236 | the reader takes every file as it is if and only if between scans files are appended to, removed, rotated or cut below what was read |
| JsonlTail.RewriteIsUnseen | scripts/operations/observability-viewer.py:221-236 | after any such scans, a file rewritten at its old length changes nothing for the reader, where whole reads would give all its records |
| JsonlTail.SplitContinues | scripts/operations/observability-viewer.py:237-239 | splitting what was left and what came gives the lines of the whole |
| JsonlHistory.PollSeesAllExactly | scripts/operations/observability-viewer.py:256-259 | a polling client sees each event once if and only if at most `max_events` arrived between its polls |
| JsonlScans.ScansAreIndependent | scripts/operations/observability-viewer.py:213-254 | each path advances from its own state, whatever the others hold |
| JsonlScans.EveryPathIsFollowed | scripts/operations/observability-viewer.py:213-254 | after any scans of a directory, the events of each path, in order, are those of following that path alone, and the whole history is numbered without gaps |
| JsonlScans.HistoryIsWholeReads | scripts/operations/observability-viewer.py:213-254 | so after any scans of a directory each path's events are those of whole reads of its generations as the reader takes them |
| JsonlReader.IncrementalJsonlReader.ScanFile | scripts/operations/observability-viewer.py:221-254 | one file of a scan: its new state, and its events numbered on without gaps |
| JsonlReader.IncrementalJsonlReader.Scan | scripts/operations/observability-viewer.py:213-254 | missing files forgotten; the events added are, in path order, those of every present file read on from its own state; states and history are those of all scans so far |
| JsonlReader.IncrementalJsonlReader.After | scripts/operations/observability-viewer.py:256-259 | scans, then returns the sequence and the kept events newer than the cursor |
| RankingMetrics.RankNdcgInUnit | scripts/experiments/hindsight_pgroonga.py:31-44 | nDCG is in [0, 1] for every ranking, repeats included, and every positive non-increasing discount |
| RankingMetrics.StageMetrics | scripts/experiments/hindsight_pgroonga.py:47-67 | the loop computes the specified metrics, and nDCG is in [0, 1] although one result may bring several documents |
| RankingMetrics.TopIsBest | scripts/experiments/hindsight_pgroonga.py:42-43 | no choice of m grades gains more than the m highest |
| RankingMetrics.Dominated | scripts/experiments/hindsight_pgroonga.py:40-44 | what is behind in every prefix sum is behind under a falling discount |
| RankingMetrics.MetricsAgree | scripts/experiments/hindsight_pgroonga.py:31-67 | the two functions agree on duplicate-free lists of single documents |
| ToolNames.NameIsReadable | src/agent_activities/capabilities.py:105-109 | prefix, key and contract version are recovered from the name, for every key |
| ToolNames.EscapedHasNoDouble | src/agent_activities/capabilities.py:105-109 | an encoded key holds no double underscore and does not end in an underscore |
| ToolNames.NamesAreDistinct | src/agent_activities/capabilities.py:117-119 | two bindings share a name only if they have the same key and version |

## Left out

Execution protocol:

- Model and provider calls, prompt text, context prompts, regex checks of answers, and the workflow engine itself: answers are arbitrary, and the engine is "deterministic workflow, activities that may crash, repeat or run late".
- Budgets, resource policy, capability facts and account access: each appears as one yes-or-no answer to an admission.
- SQL text and JSON schemas: tables are maps and sequences; identities are distinct opaque values; digests are compared as the values they digest.
- LeasePlane: the segmentless `acquire_lease` is one anonymous owner, which is how its `None` owner behaves; no exclusion is claimed among its callers.
- DurableWaits and SegmentLoop: steps between awaits instead of one method with a loop, because other transactions commit at every await; the length of retry delays and heartbeats are not modelled, nor is cache eviction, after which replay starts over from history.
- CrashRefinement.TranscriptIsCrashFree: one command at a time, as the modelled workflows issue them; parallel branches are executions of their own with transcripts of their own.
- ToolProtocol: approval-gated and capability tools take other paths; the approval path is `DurableWaits`, the admission of capabilities is `Admission`.
- BranchAttempts and DelegationRounds: the branches' own runs and the wording of their reports; the answer of a delegation that is already completed; a workflow started a second time for one operation.
- The result and observation path of capabilities (`_observe`, `_commit_result`): rows that are copied from one table to another.

Other parts:

- MemoryGovernance: one account; the order in which descendants are locked is creation order, not the order of their random identifiers; action keys are UUIDs, so a command's key never equals a descendant's derived key. Epoch invalidation and affected scopes are not modelled.
- MemoryRuns: the remote side of a delete (predecessors, operations, document and fact checks) is one result, verified or failed; every other status is "open". That no late write resurrects a deleted document is not claimed.
- IdentityTables: the seven tables a consolidation looks at are one flag; passwords are their length; revoking bindings or invites, and session expiry, have no code here. Administrator bootstrap is left out: it inserts a binding without checking for another identity of that account.
- JsonlTail: the file is seen once per scan, so one that changes or vanishes between listing, `stat` and `open` is not modelled. `pair_lifecycle` and the rest of the viewer are left out.
- RankingMetrics: `real` arithmetic; rounding and `log2` are outside, the latter as any positive non-increasing discount.
- Console, web, deployment and check scripts: no state to keep.
