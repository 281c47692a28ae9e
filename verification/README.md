# Guarded harness and gateway: a verified model

This project models the parts of two Python services whose correctness rests on several functions
at once, and proves what those parts promise.

**The guarded execution protocol** (`week03_guarded-harness`). A harness lets a language model call
tools. Every call passes a Gate; a dangerous one waits for a human approval; everything is kept in
one database, one transaction per step; a process may crash, or its lease may run out and be taken
over, between any two transactions; a recovery service then decides what may happen next.

* `Domain` holds the rows and what may ever change in them. `StateStore`, `ApprovalStore`, `Gate`
  and `Recovery` give each operation as a function from the rows to the rows or an error.
* `Database`, `GateService` and `CheckpointService` are the classes that update the rows in place,
  with loops, early errors and roll-back. Every method is proved to do what the function says.
* `Protocol` interleaves any number of Gates, approvers, recoveries, lease holders, harness moves,
  crashes, clock ticks and changes of the working tree. A run is a sequence of such steps.
* `ApprovalEffects` and `StepEffects` say what each kind of step does. `Execution`, `Approvals`,
  `Coupling`, `Results`, `Outstanding`, `Budget`, `Checkpoints`, `RecoveryPlans` and
  `RecoveryFixpoint` prove the properties of all runs from that. `LateRecovery` and `StuckRuns` are
  concrete runs with an unexpected end. `Session` carries the properties over to the classes.
* `Admission`, `RecoveryDecisions`, `Leases` and `Operations` say exactly when a call goes on, which
  decision recovery takes, who holds the lease, and which operations take effect, all of it read off
  the rows and the working tree. `AuditTrail` proves that the log alone gives back the rows of every
  run, and that it is a legal history.
* `Audit` is the hash-chained log.

**Algorithms with a simple meaning**: `Globs` (two glob matchers), `WritePolicy` (the checks that use
them), `Capture` (bounded pipe capture), `GitStatus` (status parser), `Completion` (line ranges and
merged checks).

**The gateway** (`week01_llm-gateway`): `Gateway` (one retry budget over nested loops), `RateLimit`
(token bucket), `Router` (circuit breakers and weighted rotation).

What the model takes for granted: transactions are serialisable and roll back completely; the clock
does not run backwards and reads one value in a transaction; row identities and lease tokens are
never reused; a digest of structured data equals another only when the data do (a symbolic digest;
`Audit` assumes nothing about its hash); there is one Gate for each lease token, and its calls do
not overlap; registry, policy and configuration do not change during a run, and the model's and the
verifier's tools are disjoint.

Four things the code does otherwise than one would expect, and how they are treated:

* A recovery that blocks the run under the Gate's own lease token, between `claim` and `start`,
  withdraws the claim; the Gate then starts the call in a BLOCKED run with an INVALIDATED approval.
  A stand-alone withdrawal does the same, but the repository makes none: `invalidate` is called only
  by a block. The code is modelled as it is. `Coupling` and `LateRecovery` prove the exact step
  condition, this for every such recovery, a concrete run, what holds all the same, and the
  discipline that rules it out.
* A planned re-entry can still be denied: the planner looks neither at the request, nor at equivalent
  calls and spent budgets, nor at room for the charge of a first claim, which the Gate finds out only
  when it claims. `RecoveryPlans.PlannedReentryRuns` says exactly when the handler is reached.
* While nothing else changes, recovery fails however often it is asked in two kinds of state: it
  would block the run before the expiry sweep and an approval is due, or it would rebuild a
  checkpoint whose boundary, a kind and a free reference, is taken.
  `RecoveryFixpoint.RecoverySettlesInEveryRun` says exactly when, `StuckRuns` shows both.
* The sandbox may refuse what a task may write. `deny_read` is not excused by anything; a write that
  makes directories is also refused for those; and the configuration admits a deliverable by a match
  in which a star crosses slashes, while in the sandbox it does not. `WritePolicy` says exactly when.

## Model

| member | source | states |
|---|---|---|
| Execution.AtMostOnce | week03_guarded-harness/src/guarded_harness/gate.py:1211-1236 | In every interleaving of invocations, re-entries, internal calls, takeovers, recoveries and crashes no call's handler runs twice, and none runs before its call was marked STARTED |
| Execution.StaleGateWritesNothing | week03_guarded-harness/src/guarded_harness/state_store.py:1893-1905 | Whatever a Gate is doing, once its lease is not current or has expired its next transaction changes no row: a late result and even a late denial roll back |
| Execution.TerminalCallIsFrozen | week03_guarded-harness/src/guarded_harness/state_store.py:461-612 | No later step of any run changes a single column of a call in a terminal status |
| Execution.RecoveryFencesTheOwner | week03_guarded-harness/src/guarded_harness/checkpoint.py:430-456 | After recovery marks a STARTED call UNKNOWN_RESULT its row never changes, and a Gate that still comes with a result for it, in any continuation and under any token, writes nothing and denies the call |
| Execution.HandlersStartExactly | week03_guarded-harness/src/guarded_harness/gate.py:1211-1236 | A handler is let run exactly by the step in which its Gate is ready, its lease holds and its call is PREPARED; run status and approval are not looked at and stay as they are |
| Execution.EquivalentCallsAreSuppressed | week03_guarded-harness/src/guarded_harness/gate.py:1420-1456 | For every tool and argument digest at most one non-READ call, and at most the configured number of READ calls, ever leave PREPARED, although the check reads an earlier snapshot |
| Approvals.ApprovalsStayCoherent | week03_guarded-harness/src/guarded_harness/domain.py:966-1013 | In every run every stored approval keeps the field and time rules of its status, still matches the binding computed from its run and call, and belongs to a call whose tool needs approval |
| Approvals.NoUnapprovedExecution | week03_guarded-harness/src/guarded_harness/gate.py:721-757 | A handler of a tool that needs approval has run only if an approval with this very binding was granted by another actor holding an allowed role and was afterwards claimed for this call, both before expiry; re-entry included |
| Admission.OnlyVettedCallsGoOn | week03_guarded-harness/src/guarded_harness/gate.py:667-719 | In every run a Gate that goes on with a model's call has found its tool registered and visible, its context right, its caller admitted and its arguments to be those it carries; no other tool has a call at all, so no handler of one ever runs |
| Admission.NewCallRunsExactly | week03_guarded-harness/src/guarded_harness/gate.py:639-757 | An undisturbed new call reaches its handler exactly when it is asked for rightly in a live run, needs no approval, repeats no call that blocks it, has budget and time left that its charge fits into, and names a step of the run |
| Admission.NewCallWaitsExactly | week03_guarded-harness/src/guarded_harness/gate.py:931-1017 | An undisturbed new call comes to wait for an approval exactly when it is asked for rightly in a RUNNING run, needs an approval that somebody can give, does not repeat a write, and names a step; reads and budgets are looked at only once it is granted |
| Admission.ApprovedCallRunsExactly | week03_guarded-harness/src/guarded_harness/gate.py:1079-1129 | An undisturbed call with a granted approval that is not due reaches its handler exactly when it is asked for rightly, with the stored tool and arguments, while the run waits, repeats no call that blocks it, and its charge fits |
| Admission.InternalCallRunsExactly | week03_guarded-harness/src/guarded_harness/gate.py:279-339 | An undisturbed new call of the verifier reaches its handler exactly when the tool is the verifier's, and reads only where that is asked, in its own context, in a run whose status is allowed and not final, and names a step |
| Admission.HandlersAreLogged | week03_guarded-harness/src/guarded_harness/gate.py:1544-1582 | In every run no handler runs without the Gate having logged that it lets the call through |
| Admission.DenialsAreLogged | week03_guarded-harness/src/guarded_harness/gate.py:1584-1617 | A denial ends the call, and is the one entry that whoever still holds the lease adds to the log; nobody else changes a row |
| AuditTrail.LogGivesBackTheRows | week03_guarded-harness/src/guarded_harness/state_store.py:1934-1969 | The audit log is complete: in every run, read in order, it gives back the status, revision and end of the run, the status, revision and last change of every call, the status and revision of every approval, the ledger, the steps, the facts, the last checkpoint and the holder of the lease |
| AuditTrail.LogIsALegalHistory | week03_guarded-harness/src/guarded_harness/state_store.py:47-112 | ... and in every run every entry of it may follow those before: runs, calls and approvals move along their diagrams only, approvals are decided by the actor of the entry while the run waits and spent only by the known result of their own call, and nothing is prepared, charged or planned once the run is over |
| AuditTrail.RowsStayOk | week03_guarded-harness/src/guarded_harness/state_store.py:1187-1320 | In every run the row of the run names a reason and an end exactly if the run ended so, a COMPLETED run has a verdict, and a call has an error exactly if it ended without success |
| Coupling.ConsumedMeansKnownResult | week03_guarded-harness/src/guarded_harness/gate.py:1357-1418 | In every run an approval is CONSUMED exactly when its call has a known result, and open or refused approvals have a PREPARED call; only a withdrawn approval can have a call that is STARTED or of unknown result |
| Coupling.ApprovalsFollowCalls | week03_guarded-harness/src/guarded_harness/gate.py:1357-1418 | In runs in which no recovery blocks, and nobody withdraws the claim, under the token of a Gate that is about to start the approved call, withdrawn approvals have a PREPARED call too |
| Coupling.UncouplesExactly | week03_guarded-harness/src/guarded_harness/approval.py:454-516 | From a coupled reachable state a step breaks the match exactly when it starts a call whose approval is not CLAIMED |
| Coupling.ClaimOnlyLostToHolder | week03_guarded-harness/src/guarded_harness/approval.py:454-516 | A claim disappears only, under the token that is current, by a recovery that blocks the run, by its own withdrawal, or by a result |
| Coupling.BlockingRecoveryUncouples | week03_guarded-harness/src/guarded_harness/checkpoint.py:1409-1489 | From every state in which a Gate has claimed but not started, a recovery under its token that blocks the run, followed by its start, leaves a BLOCKED run, an INVALIDATED approval, a STARTED call and a Gate that runs the handler |
| LateRecovery.EarlyBlockUncouples | week03_guarded-harness/src/guarded_harness/checkpoint.py:321-352 | The same, in terms of what recovery finds: a live run with another configuration, no checkpoint for its rows, or another working tree, and no due approval |
| Coupling.LateWithdrawalUncouples | week03_guarded-harness/src/guarded_harness/approval.py:471-501 | The same by a stand-alone withdrawal of the claim |
| LateRecovery.UncoupledIsReachable | week03_guarded-harness/src/guarded_harness/checkpoint.py:330-340 | A concrete run from an initial state, ending in such a recovery and start, reaches a BLOCKED run whose handler runs under a withdrawn approval |
| Results.ResultsAreStored | week03_guarded-harness/src/guarded_harness/gate.py:1357-1418 | In every run a Gate that still holds the lease stores the result of its STARTED call and spends the approval with a known result; only a known result of an approved call is lost, when the claim was withdrawn or the run left RUNNING meanwhile, and then no row changes |
| Results.CarefulRunsKeepTheClaim | week03_guarded-harness/src/guarded_harness/gate.py:1357-1418 | In runs with the care that ApprovalsFollowCalls names, a result is lost only if the run left RUNNING |
| Results.HandlerLeadsToResult | week03_guarded-harness/src/guarded_harness/gate.py:1238-1302 | After its handler a Gate comes to store the result, unless it fails on the output itself; then no row but the log changes and the call stays STARTED |
| Results.ResultCommitsExactly | week03_guarded-harness/src/guarded_harness/gate.py:1357-1418 | Storing a confirmed outcome of a STARTED call under the lease fails exactly when the call was approved, the result is known, and the claim or the RUNNING run is gone |
| Outstanding.NeverTwoOutstanding | week03_guarded-harness/src/guarded_harness/gate.py:968-989 | In every run a NEW, RUNNING or VERIFYING run has no PENDING or APPROVED approval, and a waiting run has at most one |
| Outstanding.WaitingMeansOneOutstanding | week03_guarded-harness/src/guarded_harness/approval.py:831-842 | In every run without stand-alone withdrawals a waiting run has exactly one: reject and expiry stop the run, a claim resumes it, in the same step |
| Outstanding.WaitingRunHasItsCall | week03_guarded-harness/src/guarded_harness/gate.py:968-989 | In every run, withdrawals included, the call whose approval opened the wait stays PREPARED while the run waits |
| Outstanding.OrphansExactly | week03_guarded-harness/src/guarded_harness/approval.py:454-516 | A step leaves a waiting run without its approval exactly when it is a stand-alone withdrawal of the active, unexpired approval at its current revision |
| Outstanding.WithdrawalSucceeds | week03_guarded-harness/src/guarded_harness/approval.py:454-516 | Withdrawing succeeds exactly under the lease, at the current revision, on a row that is not due and is active or a claim whose call is PREPARED |
| Budget.BudgetIsConserved | week03_guarded-harness/src/guarded_harness/state_store.py:805-949 | In every run each used counter is its initial value plus the sum of its ledger deltas, and never above its limit |
| Budget.ChargesAreIdempotent | week03_guarded-harness/src/guarded_harness/state_store.py:822-851 | Repeating a charge at any revision changes nothing; repeating it with another amount is a conflict |
| Budget.HandlerRunsWithinBudget | week03_guarded-harness/src/guarded_harness/gate.py:1198-1209 | In every run each model call past PREPARED owns one unit entry, and the handlers run for model calls number at most what the tool-call budget had left |
| Checkpoints.CheckpointsStayVerifiable | week03_guarded-harness/src/guarded_harness/checkpoint.py:1193-1303 | In every run checkpoints are numbered 1 to n, run revision and audit position grow with the number, the audit chain is intact, and every checkpoint ever written passes verification in every later state |
| Checkpoints.RepeatedBoundaryConflicts | week03_guarded-harness/src/guarded_harness/checkpoint.py:913-930 | Asking again for a boundary that has a checkpoint always ends in a sequence conflict, because the log has moved on |
| RecoveryPlans.PlansAreSafe | week03_guarded-harness/src/guarded_harness/checkpoint.py:380-580 | Every plan keeps the rules of its kind; a plan to go on is returned only with no STARTED or UNKNOWN_RESULT call and no due approval, and a call it names for re-entry is the only PREPARED one with a fitting approval |
| RecoveryPlans.PlannedReentryRuns | week03_guarded-harness/src/guarded_harness/gate.py:425-517 | In every reachable state, undisturbed re-entry of a planned call under the same lease reaches the handler exactly when the request fits (tool, context, permission and digest, no equivalent call that blocks it, steps, cost and time left) and a charge that is still owed finds room |
| RecoveryPlans.ReadyReentry | week03_guarded-harness/src/guarded_harness/gate.py:519-587 | Re-entry of a PREPARED call whose rows fit passes every run, approval and claim check: it reaches the handler exactly when the request fits and the owed charge finds room |
| RecoveryDecisions.RecoveryWatchesTheTree | week03_guarded-harness/src/guarded_harness/checkpoint.py:581-652 | In every run a plan to go on is returned exactly when the run is live under its own configuration, no approval is due, every call has a known result that a checkpoint holds, no approval is left, and the working tree is the one the last checkpoint saw; a checkpoint is rebuilt exactly when results are missing and the tree has not changed or its change can be owed to finished calls; the tree is the reason for a review exactly in the remaining cases |
| RecoveryDecisions.RecoveryFollowsTheCall | week03_guarded-harness/src/guarded_harness/checkpoint.py:430-580 | In every run a plan names an open call exactly if it is the only one and no call is of unknown result: a STARTED one is marked unknown, a PREPARED one goes back to the Gate, waits, or resumes its claim as its approval and the run's status say |
| RecoveryDecisions.RecoveryAsksForReview | week03_guarded-harness/src/guarded_harness/checkpoint.py:253-352 | In every run each other reason of a plan, and that the run is over, is given exactly in the states listed for it |
| RecoveryDecisions.RecoveryChecksFacts | week03_guarded-harness/src/guarded_harness/checkpoint.py:1305-1344 | In every run, recovery that examines the rows takes the validity of exactly those facts about files that the files contradict, and changes nothing else about any fact |
| RecoveryDecisions.ReviewClosesTheRun | week03_guarded-harness/src/guarded_harness/checkpoint.py:1409-1489 | In every run a live run that is left for review ends now, unjudged, for the stop reason that belongs to the reason of the plan, and no approval is left that anything could still be started with |
| RecoveryDecisions.PlansNameTheirState | week03_guarded-harness/src/guarded_harness/checkpoint.py:1491-1616 | Every plan is stored under the revision, last checkpoint, valid and invalid facts of the state it leaves; a rebuild names the checkpoint that now holds the result |
| RecoveryDecisions.DamagedLogIsRefused | week03_guarded-harness/src/guarded_harness/checkpoint.py:238-246 | Without the lease, or when the log is not the one that was appended, recovery decides nothing |
| RecoveryFixpoint.RecoverySettles | week03_guarded-harness/src/guarded_harness/checkpoint.py:223-685 | With clock, configuration and working tree unchanged, recovery that is not stuck succeeds every time and after at most max(2, m + 1) calls returns one stored decision for ever, m being the finished calls without a checkpoint; stuck means an early block with a due approval, or a rebuild with a boundary that is taken |
| RecoveryFixpoint.StuckRecoveryFails | week03_guarded-harness/src/guarded_harness/checkpoint.py:223-685 | Stuck recovery fails, at once or when it reaches the boundary that is taken |
| RecoveryFixpoint.RecoverySettlesInEveryRun | week03_guarded-harness/src/guarded_harness/checkpoint.py:223-685 | In every reachable state and for whoever holds the lease, one or the other: it settles, or it fails for ever, at once or after fewer than m calls |
| RecoveryFixpoint.EarlyDecisionSucceedsExactly | week03_guarded-harness/src/guarded_harness/checkpoint.py:253-352 | A decision taken before the expiry sweep is carried out exactly unless it blocks a run that has a due approval |
| RecoveryFixpoint.DueApprovalFinishes | week03_guarded-harness/src/guarded_harness/checkpoint.py:354-378 | Without an early decision, a due approval is expired by the sweep, the waiting run stops, and the stored decision is that it is finished |
| RecoveryFixpoint.RebuildSucceedsExactly | week03_guarded-harness/src/guarded_harness/checkpoint.py:917-931 | A rebuild succeeds exactly when no checkpoint has its boundary; otherwise it ends in a sequence conflict |
| RecoveryFixpoint.RebuildProgresses | week03_guarded-harness/src/guarded_harness/checkpoint.py:581-627 | A rebuild takes exactly one call off the finished calls without a checkpoint and takes no boundary of another |
| RecoveryFixpoint.WellFiledRunsStayFree | week03_guarded-harness/src/guarded_harness/checkpoint.py:1080-1191 | If the harness files tool checkpoints under their own call, which nothing checks, no boundary that a rebuild needs is ever taken |
| RecoveryFixpoint.BlockedSettles | week03_guarded-harness/src/guarded_harness/checkpoint.py:272-296 | BLOCKED is absorbing: the next call files a review and all later calls return it |
| StuckRuns.DueApprovalSticks | week03_guarded-harness/src/guarded_harness/approval.py:464-470 | A concrete run reaches a state in which recovery fails because the approval it would withdraw is due |
| StuckRuns.MisfiledCheckpointSticks | week03_guarded-harness/src/guarded_harness/checkpoint.py:917-931 | A concrete run reaches a state in which recovery fails because a checkpoint of another call has the boundary it needs |
| Protocol.ExecEvolves | week03_guarded-harness/src/guarded_harness/state_store.py:105-1995 | Every run only moves rows forward: calls and run statuses never go back, ledger, log, checkpoints and evidence only grow, and a lease changes hands only to a token never used before |
| Leases.AcquireExactly | week03_guarded-harness/src/guarded_harness/state_store.py:1813-1891 | Acquiring succeeds exactly when the ttl is in range and the lease is absent or expired; then it is the caller's, from now on for the ttl, under the next token |
| Leases.RenewExactly | week03_guarded-harness/src/guarded_harness/state_store.py:1335-1382 | Renewing succeeds exactly for a ttl in range and the holder of an unexpired lease; then it ends the ttl from now |
| Leases.ReleaseExactly | week03_guarded-harness/src/guarded_harness/state_store.py:1384-1404 | Letting go succeeds exactly under the current token, expired or not, and leaves no lease |
| Leases.LiveLeaseStays | week03_guarded-harness/src/guarded_harness/state_store.py:1813-1891 | While a lease is alive, every step but its own release leaves it with its token and owner, and its end moves only when its holder renews it |
| Leases.LeaseChangesHandsExactly | week03_guarded-harness/src/guarded_harness/state_store.py:1829-1841 | Another token gets the lease only by acquiring it, for a ttl in range, once the old one has expired or was let go; it disappears only by its own release |
| Leases.HolderKeepsLease | week03_guarded-harness/src/guarded_harness/state_store.py:1335-1382 | Whoever renews in time and does not let go holds the lease to the end of any run |
| StepEffects.StepKind | week03_guarded-harness/src/guarded_harness/gate.py:90-1621 | Every step of the system has one of eleven effects on approvals, calls and run status, each with the Gate state or store operation it can come from |
| StepEffects.PrepareRecoveryEffect | week03_guarded-harness/src/guarded_harness/checkpoint.py:223-685 | A recovery lets due approvals lapse and then leaves the run alone, or withdraws exactly the approvals that could still be used and blocks it, possibly after marking one STARTED call unknown |
| ApprovalEffects.ClaimAndAllowEffect | week03_guarded-harness/src/guarded_harness/gate.py:1079-1129 | A committed claim takes an APPROVED, unexpired row, resumes the waiting run, charges one unit and logs the claim, all at once |
| ApprovalEffects.PersistEffect | week03_guarded-harness/src/guarded_harness/gate.py:1357-1418 | A committed result makes the STARTED call terminal and spends its claim exactly when the result is known |
| ApprovalEffects.OpenApprovalEffect | week03_guarded-harness/src/guarded_harness/gate.py:931-1017 | Opening adds the PREPARED call, its linked PENDING row and the waiting status together, or changes nothing of these |
| ApprovalEffects.DecideEffect | week03_guarded-harness/src/guarded_harness/approval.py:737-843 | A decision needs a PENDING, unexpired row, a waiting run and an eligible other actor, and is logged with the row change; a rejection stops the run |
| Approvals.RowKeepsHistory | week03_guarded-harness/src/guarded_harness/approval.py:549-587 | No row move breaks the coherence of a row or loses the grant and claim it rests on |
| RecoveryPlans.RefreshLeavesNoneDue | week03_guarded-harness/src/guarded_harness/approval.py:436-452 | After the expiry sweep of a recovery no approval is due |
| Operations.RunMovesExactly | week03_guarded-harness/src/guarded_harness/state_store.py:1187-1320 | The holder of the lease can make exactly the moves of the status diagram, with a reason exactly for an end without success and a verdict for COMPLETED; a run out of budget is never judged |
| Operations.DecisionTakesEffectExactly | week03_guarded-harness/src/guarded_harness/approval.py:737-843 | A decision on a pending row that is not due takes effect exactly at its current revision, while the run waits, by someone else with an allowed role: the row is decided now by that actor, a rejection stops the run; otherwise nothing changes |
| Operations.AskingAgainExactly | week03_guarded-harness/src/guarded_harness/approval.py:845-887 | Asking again for a call that has an approval answers with it, and writes nothing, exactly while it is active and not due, was asked for by the same actor with the same arguments, roles and lifetime, and the run waits |
| Operations.ClaimTakenExactly | week03_guarded-harness/src/guarded_harness/approval.py:518-599 | An approval that is not due is claimed exactly once granted, at its revision, for its own call, bound to it, while the run waits; only that row changes |
| Operations.ClaimRecoveredExactly | week03_guarded-harness/src/guarded_harness/approval.py:601-652 | A claim is taken up again exactly by the call that made it, while that is PREPARED and bound to it and the run is RUNNING |
| Operations.ClaimSpentExactly | week03_guarded-harness/src/guarded_harness/approval.py:654-735 | A claim is spent exactly by the known result that its own call has, in a RUNNING run |
| Operations.WaitingGateLooks | week03_guarded-harness/src/guarded_harness/gate.py:1019-1077 | A Gate that waits goes on waiting while the approval is pending, looks at the call again once it is granted, and when its time is up expires the row, stops the run and denies the call |
| Operations.KnownCallIsDenied | week03_guarded-harness/src/guarded_harness/gate.py:676-719 | A call asked for again under its identity is denied for what became of it or of its approval, and for a conflict if tool or arguments differ |
| Operations.KnownInternalCallIsDenied | week03_guarded-harness/src/guarded_harness/gate.py:279-339 | A verifier's call asked for again under its identity never reaches a handler |
| Operations.NewCallIsRecorded | week03_guarded-harness/src/guarded_harness/gate.py:1131-1163 | A call that is let through has a row that is what was asked for, as its tool is described, and one unit on the ledger unless it is the verifier's |
| Operations.EndedRunTellsWhy | week03_guarded-harness/src/guarded_harness/gate.py:646-663 | A call of a run that ended because its approval was refused or ran out is told so |
| Operations.ReentryDecidesExactly | week03_guarded-harness/src/guarded_harness/gate.py:425-517 | What re-entry of a known call comes to is read off its row, its approval and the status of the run: going back, waiting without a write, or denied with the code for it; equivalent calls, steps, cost and time count, charged calls do not |
| Operations.RepeatCodes | week03_guarded-harness/src/guarded_harness/gate.py:1420-1456 | A repeated write is a suppressed replay if an equal one succeeded; everything else that blocks is a call too many |
| Operations.OldRunIsRefused | week03_guarded-harness/src/guarded_harness/state_store.py:1187-1320 | Whoever knows the run row at another revision moves, plans, prepares and charges nothing, except that a charge made before is answered again |
| Operations.ResultIsAsReported | week03_guarded-harness/src/guarded_harness/gate.py:1357-1418 | A stored result is what the handler reported: status, error and exactly its facts, about this call and valid; a malformed report, or a time-out of a tool that is not idempotent, is an unknown result |
| Operations.CheckpointTakenExactly | week03_guarded-harness/src/guarded_harness/checkpoint.py:869-987 | A checkpoint at a new boundary is written exactly if the rows have reached it, and shows the rows, the head of the log and the working tree of this moment |
| Operations.FactRecordedExactly | week03_guarded-harness/src/guarded_harness/state_store.py:614-688 | A fact is recorded exactly if it is about no call, or about one that is there and has not ended |
| Session.Session.Turn | week03_guarded-harness/src/guarded_harness/gate.py:90-1621 | On rows that belong to a state some run reaches, a turn of the Gate object is a step of that run; a handler that it runs has never run before, and one that needs approval has its grant and claim |
| Session.Session.PrepareRecovery | week03_guarded-harness/src/guarded_harness/checkpoint.py:223-685 | On such rows recovery is a step of the run, returns a coherent plan, and leaves the rows alone when it fails |
| Database.Database.TransitionRun | week03_guarded-harness/src/guarded_harness/state_store.py:1187-1320 | The run row, its revision and the log change as the value-level operation says, or the same error is returned |
| Database.Database.CreateStep | week03_guarded-harness/src/guarded_harness/state_store.py:291-356 | Same, for planning a step |
| Database.Database.CreateInvocation | week03_guarded-harness/src/guarded_harness/state_store.py:358-459 | Same, for a new PREPARED call |
| Database.Database.TransitionInvocation | week03_guarded-harness/src/guarded_harness/state_store.py:461-612 | Same, for moving a call under its expected status and revision |
| Database.Database.AddEvidence | week03_guarded-harness/src/guarded_harness/state_store.py:614-688 | Same, for a new fact of a call that is not terminal |
| Database.Database.InvalidateEvidence | week03_guarded-harness/src/guarded_harness/state_store.py:690-748 | Same, for marking a fact stale |
| Database.Database.RecordBudgetDelta | week03_guarded-harness/src/guarded_harness/state_store.py:805-949 | Same, for a charge and its replay |
| Database.Database.MarkCheckpointWritten | week03_guarded-harness/src/guarded_harness/state_store.py:750-803 | Same, for the last-checkpoint column |
| Database.Database.VerifyLease | week03_guarded-harness/src/guarded_harness/state_store.py:1893-1905 | The lease check and its two errors |
| Database.Database.AcquireLease | week03_guarded-harness/src/guarded_harness/state_store.py:1813-1891 | Only an absent or expired lease is taken, under a token not used before |
| Database.Database.RenewLease | week03_guarded-harness/src/guarded_harness/state_store.py:1335-1382 | Only the holder of an unexpired lease extends it |
| Database.Database.ReleaseLease | week03_guarded-harness/src/guarded_harness/state_store.py:1384-1404 | The current token releases the lease |
| Database.Database.CreateApproval | week03_guarded-harness/src/guarded_harness/approval.py:183-341 | The row, the link from its call and the log entry appear together; a duplicate is returned or refused |
| Database.Database.LoadApproval | week03_guarded-harness/src/guarded_harness/approval.py:343-352 | A due row is expired on the way |
| Database.Database.Expire | week03_guarded-harness/src/guarded_harness/approval.py:934-988 | The row expires and a waiting run stops |
| Database.Database.ExpireDue | week03_guarded-harness/src/guarded_harness/approval.py:436-452 | The loop over all due rows, oldest request first |
| Database.Database.Claim | week03_guarded-harness/src/guarded_harness/approval.py:518-599 | Every refusal in order, and the claimed row |
| Database.Database.ResumeClaim | week03_guarded-harness/src/guarded_harness/approval.py:601-652 | A claim is recovered only while its call is PREPARED |
| Database.Database.Consume | week03_guarded-harness/src/guarded_harness/approval.py:654-735 | A claim is spent only by the known result its call already has |
| Database.Database.Invalidate | week03_guarded-harness/src/guarded_harness/approval.py:454-516 | Withdrawal of an active row or of a claim not yet used |
| Database.Database.Decide | week03_guarded-harness/src/guarded_harness/approval.py:737-843 | Every refusal in order, the decided row, and the stop after a rejection |
| GateService.GateService.OpenApproval | week03_guarded-harness/src/guarded_harness/gate.py:931-1017 | The transaction body writes what the value-level transaction says or fails with its error |
| GateService.GateService.PollApproval | week03_guarded-harness/src/guarded_harness/gate.py:1019-1077 | Same; an expiry found on the way is part of it |
| GateService.GateService.ClaimAndAllow | week03_guarded-harness/src/guarded_harness/gate.py:1079-1129 | Same, for claim, run resume and charge |
| GateService.GateService.PrepareAndAllow | week03_guarded-harness/src/guarded_harness/gate.py:1131-1163 | Same, for the new call and its charge; an internal call is not charged |
| GateService.GateService.ResumeOrClaim | week03_guarded-harness/src/guarded_harness/gate.py:519-587 | Same, for both branches of re-entry |
| GateService.GateService.MarkStarted | week03_guarded-harness/src/guarded_harness/gate.py:1211-1236 | Same, for the start |
| GateService.GateService.AddFacts | week03_guarded-harness/src/guarded_harness/gate.py:1357-1418 | The evidence loop |
| GateService.GateService.PersistResult | week03_guarded-harness/src/guarded_harness/gate.py:1357-1418 | Same, for evidence, result and spent claim |
| GateService.GateService.LogDenial | week03_guarded-harness/src/guarded_harness/gate.py:1584-1617 | A denial is logged only under a valid lease |
| GateService.GateService.Turn | week03_guarded-harness/src/guarded_harness/gate.py:125-142 | One turn on the rows is one turn of the protocol: a failed transaction is rolled back and denied |
| CheckpointService.CheckpointService.CreateCheckpoint | week03_guarded-harness/src/guarded_harness/checkpoint.py:869-987 | Every refusal, the existing row, or the next row with its snapshot |
| CheckpointService.CheckpointService.RecordPlan | week03_guarded-harness/src/guarded_harness/checkpoint.py:1491-1616 | The stored decision under the same key, or this one once stored |
| CheckpointService.CheckpointService.BlockRecovery | week03_guarded-harness/src/guarded_harness/checkpoint.py:1409-1489 | The loop that withdraws every approval that could still be used, and the end of the run |
| CheckpointService.CheckpointService.Refresh | week03_guarded-harness/src/guarded_harness/checkpoint.py:1305-1344 | The expiry sweep and the loop that marks stale facts |
| CheckpointService.CheckpointService.PrepareRecovery | week03_guarded-harness/src/guarded_harness/checkpoint.py:223-685 | The rows and the plan are those of the value-level decision; an error leaves no trace |
| Audit.AppendedLogsVerify | week03_guarded-harness/src/guarded_harness/audit.py:208-331 | A log built by appending passes verification and holds exactly what was appended, in order |
| Audit.VerifiedLogsWereAppended | week03_guarded-harness/src/guarded_harness/audit.py:419-463 | A log that passes is the one its own entries produce; no other log passes |
| Audit.ForgeryNeedsCollision | week03_guarded-harness/src/guarded_harness/audit.py:574-582 | Two different logs that pass with equal length and head hash yield two payloads with one hash, and the lemma returns them |
| Audit.HeadHashBindsLog | week03_guarded-harness/src/guarded_harness/audit.py:547-571 | With a collision-free hash, length and head hash fix the whole log |
| Audit.AuditStore.AppendEvent | week03_guarded-harness/src/guarded_harness/audit.py:208-331 | The log grows by one record linked to the head |
| Audit.VerifyLog | week03_guarded-harness/src/guarded_harness/audit.py:419-463 | The loop says intact exactly for valid chains; otherwise it names the first bad record and the kind of fault |
| Globs.Expression | week03_guarded-harness/src/guarded_harness/tools/common.py:198-222 | The translation loop yields the token sequence of the pattern |
| Globs.GlobMatches | week03_guarded-harness/src/guarded_harness/tools/common.py:198-222 | Invalid patterns are refused; otherwise the answer is that of the regular expression |
| Globs.MatchersAgree | week03_guarded-harness/src/guarded_harness/sandbox.py:2474-2498 | On well-formed patterns and newline-free paths the expression accepts exactly what the segment matcher accepts with its last run of `**` taking a segment if there is something before it |
| Globs.ExpressionMatches | week03_guarded-harness/src/guarded_harness/tools/common.py:198-222 | The regular expression, characters and all, accepts a path exactly when a matcher on segments does |
| Globs.DifferenceIsTheBareDirectory | week03_guarded-harness/src/guarded_harness/sandbox.py:2474-2498 | Where the matchers differ the path matches the pattern without its last run of `**` |
| Globs.BareDirectoryDiffers | week03_guarded-harness/src/guarded_harness/sandbox.py:2474-2498 | `docs/**` and `docs`: matched by one, not by the other |
| Globs.ValidGlobExactly | week03_guarded-harness/src/guarded_harness/tools/common.py:178-195 | A pattern of whole segments is valid exactly when it is not too long, has no control character, backslash or colon, and no segment climbs out of the workspace |
| Globs.NothingMatchesTheRoot | week03_guarded-harness/src/guarded_harness/sandbox.py:2474-2498 | No pattern of whole segments, not even `**`, matches the workspace itself |
| WritePolicy.RepairWritesRefusedExactly | week03_guarded-harness/src/guarded_harness/tools/common.py:98-116 | In a repair task a path the task may write is refused exactly when it, or a parent that the write makes, matches deny_read: the allow pattern the expression matcher accepted excuses every deny_write match |
| WritePolicy.FlatExcuses | week03_guarded-harness/src/guarded_harness/config.py:614-617 | An allow pattern without a segment ** excuses exactly the paths that the configuration admits by it and that are as deep as the pattern |
| WritePolicy.SubtreeExcuses | week03_guarded-harness/src/guarded_harness/sandbox.py:2474-2498 | An allow pattern that ends in its only ** excuses exactly the paths whose beginning its other segments match one by one |
| WritePolicy.DeliverableWritesRefusedExactly | week03_guarded-harness/src/guarded_harness/sandbox.py:1446-1554 | A path is refused exactly when it, or a parent that the write makes, matches deny_read, or matches deny_write while no allow pattern excuses the path, by the rule for its shape |
| WritePolicy.AdmittedDeliverableRefusedExactly | week03_guarded-harness/src/guarded_harness/sandbox.py:1644-1718 | With flat allow patterns an admitted deliverable that is denied for writing is excused exactly by a pattern that admits it and is as deep as the path |
| WritePolicy.AdmittedDeliverableIsRefused | week03_guarded-harness/src/guarded_harness/config.py:614-623 | A deliverable that the configuration admits, because there a star crosses slashes, and that the sandbox refuses |
| WritePolicy.ParentIsRefused | week03_guarded-harness/src/guarded_harness/sandbox.py:1644-1718 | An admitted deliverable that nothing denies, refused for the directory that writing it makes |
| WritePolicy.UnreadableIsRefused | week03_guarded-harness/src/guarded_harness/sandbox.py:1446-1554 | A path that a repair task may write, refused because it may not be read |
| Capture.BoundedCapture.Append | week03_guarded-harness/src/guarded_harness/sandbox.py:447-465 | Head and tail buffers stay those of the whole stream so far; the trim loop ends |
| Capture.BoundedCapture.Finish | week03_guarded-harness/src/guarded_harness/sandbox.py:467-479 | The result is the one-shot capture of the stream |
| Capture.Drain | week03_guarded-harness/src/guarded_harness/sandbox.py:435-479 | However a stream is cut into chunks, the capture is that of the whole stream |
| Capture.CaptureKeepsBothEnds | week03_guarded-harness/src/guarded_harness/sandbox.py:467-479 | The capture is the whole stream when it fits, and otherwise its first limit//2 and last bytes; it is marked truncated exactly when it does not fit, and kept and omitted bytes add up |
| Capture.CaptureReadsInOrder | week03_guarded-harness/src/guarded_harness/sandbox.py:467-479 | A truncated capture reads: the first limit//2 bytes, the marker with the number of missing bytes, the last bytes |
| Capture.DigitsMean | week03_guarded-harness/src/guarded_harness/sandbox.py:467-479 | The number in the marker is decimal, without leading zeros, and stands for the missing bytes |
| GitStatus.ParseStatus | week03_guarded-harness/src/guarded_harness/sandbox.py:2420-2471 | The index loop computes the record-by-record reading of the output |
| GitStatus.ParseInvertsPrint | week03_guarded-harness/src/guarded_harness/sandbox.py:2420-2471 | Printing any mix of status lines with any NUL-free paths and parsing gives back exactly their letters and paths in order, and fails exactly when some letters are not ASCII; a rename's original path is never read as a record |
| Completion.RangesCover | week03_guarded-harness/src/guarded_harness/completion.py:2354-2366 | The loop answers true exactly when every required line lies in some range |
| Completion.CollapseChecks | week03_guarded-harness/src/guarded_harness/completion.py:2378-2402 | The dictionary loop yields the merged items in order of first appearance |
| Completion.CollapsingKeepsTheVerdict | week03_guarded-harness/src/guarded_harness/completion.py:2378-2402 | For checks as the program builds them, where one that could not be verified counts as failed, collapsing changes no verdict and keeps that form |
| Completion.CollapsingMeans | week03_guarded-harness/src/guarded_harness/completion.py:2369-2375 | For any checks: identities become unique and stay the same, acceptance is unchanged, and the verdict is UNVERIFIABLE exactly when some identity has a failed check and a doubtful one |
| Gateway.RetryBudget.ConsumeAttempt | week01_llm-gateway/app/services/gateway.py:90-106 | An attempt is counted exactly when the budget is not exhausted |
| Gateway.Complete | week01_llm-gateway/app/services/gateway.py:144-282 | The three nested loops are a flat machine over upstream calls, and end for every upstream |
| Gateway.ServeStaysInBudget | week01_llm-gateway/app/services/gateway.py:144-282 | At most max_retries_per_request + 1 upstream calls across routes, retries and repairs; an answer is the last reply and the first acceptable one; only content that misfits is repaired, content whose parser fails ends the request; repairs stay within their limit |
| Gateway.ServeTriesEveryRoute | week01_llm-gateway/app/services/gateway.py:144-282 | Failure of all routes with budget left is reported only after each route of the last round was called; only routes that their round offered are called |
| Gateway.CompleteRetriesRightly | week01_llm-gateway/app/services/gateway.py:200-208 | A call is repeated on its route exactly after a retryable refusal, with tries and budget left; no route of a round is called more than max_retries_per_route + 1 times, and `retries` counts the repeats |
| Gateway.ServeEndsRightly | week01_llm-gateway/app/services/gateway.py:144-282 | How a request ends is read off its last call: the failure reported is that of the last call of the round, and only routes that can express the request are called |
| Gateway.Stream | week01_llm-gateway/app/services/gateway.py:284-450 | The generator's loops are a flat machine, and end for every upstream with finite streams |
| Gateway.SendChunks | week01_llm-gateway/app/services/gateway.py:374-391 | The chunk loop forwards the non-empty chunks until the client leaves |
| Gateway.RelaysOneResponse | week01_llm-gateway/app/services/gateway.py:284-450 | Upstream calls stay within the budget; forwarded bytes are a prefix of the response to the last call, and all of it when the stream finished |
| Gateway.StreamRetriesRightly | week01_llm-gateway/app/services/gateway.py:358-366 | The same of a stream, one that breaks before its first byte included |
| Gateway.RelayEndsRightly | week01_llm-gateway/app/services/gateway.py:284-450 | How a stream ends is read off its last call; only routes that can express the request are called |
| Gateway.RelayTriesEveryRoute | week01_llm-gateway/app/services/gateway.py:284-450 | A stream gives up with budget left only after every route was called |
| Gateway.RelaysWhileStaying | week01_llm-gateway/app/services/gateway.py:374-391 | What leaves are exactly the non-empty chunks of the last call up to the one at which the client left |
| RateLimit.RateLimiter.Check | week01_llm-gateway/app/core/rate_limit.py:29-56 | The decision and the one changed bucket; every other key is untouched |
| RateLimit.WindowBound | week01_llm-gateway/app/core/rate_limit.py:29-56 | After any earlier run, any window of length T admits at most burst + T * rpm / 60 requests for one identity and model |
| RateLimit.RunStaysSound | week01_llm-gateway/app/core/rate_limit.py:29-56 | Over runs with nondecreasing times tokens stay between 0 and burst |
| RateLimit.BurstIsAdmitted | week01_llm-gateway/app/core/rate_limit.py:29-56 | As many requests as there are whole tokens are admitted at once: the bound is reached |
| RateLimit.FreshKeyHasItsBurst | week01_llm-gateway/app/core/rate_limit.py:29-56 | A key never seen is admitted exactly burst times at once |
| RateLimit.IdleKeyIsAdmitted | week01_llm-gateway/app/core/rate_limit.py:29-56 | After any run a key whose last check is d seconds old is admitted at least as often at once as the whole part of min(burst, d * rpm / 60) |
| RateLimit.WaitingIsRewarded | week01_llm-gateway/app/core/rate_limit.py:29-56 | After any run a key whose last check is at least 60 / rpm seconds old is admitted |
| RateLimit.RetryAfterIsTheWait | week01_llm-gateway/app/core/rate_limit.py:29-56 | The wait that a refusal names is at least one second, and otherwise the whole part of the missing tokens over the rate |
| RateLimit.DisabledAdmitsAll | week01_llm-gateway/app/core/rate_limit.py:29-56 | Switched off, the limiter admits every request of every key and keeps no bucket |
| Router.ModelRouter.Candidates | week01_llm-gateway/app/services/router.py:28-74 | Each error in its case; otherwise the healthy routes in order, or answer number n of the rotation, and the counter moves on |
| Router.ModelRouter.Filter | week01_llm-gateway/app/services/router.py:28-74 | The filter keeps the usable routes; probing circuits on the way changes no answer |
| Router.FirstExactlyByWeight | week01_llm-gateway/app/services/router.py:28-74 | Over any W consecutive answers for the same available routes of total weight W each route is first exactly as often as it weighs |
| Router.AnswersArePermutations | week01_llm-gateway/app/services/router.py:28-74 | Every answer is a permutation of the available routes |
| Router.FallbacksKeepTheirOrder | week01_llm-gateway/app/services/router.py:28-74 | Behind the first route the others follow in the order in which they are configured |
| Router.SelectsExactly | week01_llm-gateway/app/services/router.py:38-58 | A route is offered exactly if it speaks the protocol, its provider is switched on, and its circuit is closed or has cooled down; no match is reported exactly if none speaks the protocol |
| Router.SelectsInOrder | week01_llm-gateway/app/services/router.py:38-58 | Selecting looks at one route at a time and keeps their order |
| Router.AskAround | week01_llm-gateway/app/services/router.py:28-74 | A caller that asks the router W times in a row, at times that do not decrease, while the available routes of total weight W stay the same, gets permutations of them in which each is first exactly as often as it weighs, wherever the counter was |
| Router.FailuresOpenTheCircuit | week01_llm-gateway/app/services/router.py:79-83 | Failures open a provider's circuit exactly from the threshold on, at the time of the last one, and touch no other provider |
| Router.AnsweredProviderIsDropped | week01_llm-gateway/app/services/router.py:85-96 | A provider that just answered, or was never asked, is dropped by exactly threshold failures in a row, and only until the cooldown since the last of them is over |
| Router.CircuitsStayConsistent | week01_llm-gateway/app/services/router.py:85-96 | A circuit is open exactly when its failures reached the threshold, after every operation |

## Left out

- Coupling.ApprovalsFollowCalls: it is stated for runs in which no recovery blocks, and nobody withdraws the claim, under the token of a Gate that is about to start, because it is false of the code otherwise (`Coupling.BlockingRecoveryUncouples`); what holds in every run is `Coupling.ConsumedMeansKnownResult`.
- Outstanding.WaitingMeansOneOutstanding: it is stated for runs without stand-alone withdrawals, because such a withdrawal leaves a run waiting for nothing; `Outstanding.OrphansExactly` gives the exact step. The repository itself withdraws approvals only while blocking a run.
- Redaction of stored arguments: whether the argument digest computed at re-entry equals the stored one is part of the condition in `RecoveryPlans.PlannedReentryRuns`, and not derived.
- Globs.MatchersAgree: character classes of `fnmatch`, patterns in which `**` does not fill a segment, and newlines in paths are not compared.
- Names that the platform protects or calls sensitive, and symbolic links that give a path two names: `WritePolicy` is about the task's path lists.
- SQL text, row parsing, table constraints and storage integrity checks.
- The harness that drives a run: its transitions, steps, notes, facts and charges happen at any time the store allows them. Plans, step statuses, completion and test records, and the checkpoint rule that looks at them, are one step that only advances the revision and the log.
- Policy permissions, risk rules, schema validation and argument normalisation: they are fields of a request.
- Redaction, message texts, output truncation, observations, and the content of continuation contexts and audit summaries.
- The read that an internal call makes before its snapshot, and the run lock itself.
- The wall-time budget: `transition_run` never writes the start time, so the check is modelled on the creation value and nothing is claimed of it.
- Money is counted in a fixed unit; decimal rounding is not modelled.
- Filesystem, symbolic links, processes and Git commands: a working tree is a value. Changed paths are not cut off after a thousand, and evidence paths are relative to the same root as changed paths.
- Ties in time are broken by identity where the source relies on row order.
- Limits on the size of a snapshot and of the recovery context.
- Codes, messages and evidence of merged completion checks; only identity, pass and doubt are kept.
- Backoff delays, usage accounting, tracing, prompt look-up, protocol adapters and error mapping of the gateway. A request that the first route cannot express is refused before a stream starts; here it is the `Rejected` ending with no upstream call.
- Floating point: the token bucket uses real numbers. `retry_after` truncates, so waiting that long does not promise admission.
- Two models or protocols that share one rotation counter between calls: fairness is stated for consecutive answers with the same available routes.
- The week 2 tool runtime, configuration loading and the web interface.
