# SubagentBridge: a verified model of its control plane

SubagentBridge supervises worker agents. This project models the parts of it that keep durable or
concurrent state, as Dafny state machines and classes, and proves what those parts are for: an
approval is spent once, a verified task has provenance, a slot is never leaked, an audit stream is
append-only, a checkpointed step is not repeated, a migration loses nothing.

## How it is laid out

Every component comes in up to three layers.

- **Specification functions on values** say what one call does to the state it reads and writes,
  branch by branch, including every refusal.
- **Classes** hold the same state in fields and update it in place, in the order the source does.
  Their `ensures` clauses equate the new state and the answer with the specification function of the
  old state, so nothing about the function can differ from the method.
- **Runs** are sequences of operations by any number of callers. A step is one database transaction,
  one compare-and-swap, or what a thread does between two points where another can run; where the source
  reads a row, decides, and later writes the whole row back, the read and the write are two steps. (The
  reads that precede a resume's plan are taken together as one.) The main results are lemmas over all runs.

| files | component |
|---|---|
| `OperatorApproval`, `OperatorBoundary` | the multi-supervisor approval boundary |
| `TaskDag` | the plan validator's depth-first search |
| `Budget` | the in-memory and the SQLite budget ledger |
| `Registry`, `Contracts`, `Engine`, `Qa` | identities, receipts, evidence, verdicts, task aggregate, QA gate |
| `Coordinator`, `SupervisedCoordinator` | the coordinator over all of the above |
| `DependencyClosure`, `TaskProgress`, `StaleReconciliation` | what a task stands on over whole runs, that it can be verified, and the run in which it loses its ground |
| `Keys`, `AuditChain`, `AuditLedger` | idempotency keys, the hash chain, the ledger |
| `BusProtocol`, `MessageBus` | the durable message bus on the ledger |
| `CrashRecovery`, `CrashSafety`, `CrashGuard`, `CrashOrder`, `CrashRecord`, `CrashTeam`, `CrashRuns`, `CrashTeamRuns`, `CrashResume`, `TeamAudit` | resuming a task, by one orchestrator or several, and the audit after a crash |
| `StreamReader`, `WorkerProtocol`, `WorkerRestart`, `WorkerRuns`, `WorkerController` | worker IPC |
| `Migration`, `SchemaMigration` | the legacy schema migration |
| `DispatchTracker` | dispatch attempts |

SHA-256 is a function parameter; nothing is assumed of it except where a lemma says so. Fresh
identifiers (`uuid4`, `token_hex`), clock readings, verifier answers, worker answers and liveness are
parameters of the step that uses them; in the runs of the coordinator and of the approval boundary a
drawn identifier is never drawn again.

## What turned out to be false, and when it holds

- *A checkpointed step is never dispatched again* fails in three ways: a step whose artifact is gone is
  planned anew; so is every step, if all are checkpointed, COMPLETED was not stored and the finishing
  evidence is missing (which it always is for steps without artifacts and no expected artifacts); and so
  is a step without a name, because it is recorded under a number and looked up by its name.
  `CrashSafety.ReplayIffEvidenceGone` is the exact condition for a round on a valid checkpoint,
  `CrashSafety.NamedReplayIff` the same in the terms of the stored record where all steps are named, and
  `CrashSafety.ReplayedStep` names the steps; `CrashRuns.FinishedTaskIsReplayed` is a run in which nothing
  vanished. `CrashOrder.NeverReplansIff` is the exact condition over whole runs, and
  `CrashOrder.ResumeSafety` the property under it.
- *No round without a trusted record*: the guard is the list `_unverified_completed_steps` in the row's
  payload, and everybody who changes the row writes back the payload they read. An audit that read the
  row before the first note erases it: `CrashRuns.LateAuditErasesNote` is the run, after which a
  checkpointed step is planned and dispatched anew on a record that is not valid.
  `CrashGuard.GuardedIffNeverErases` says exactly when the guard stands throughout,
  `CrashGuard.RoundsOnRecordIff` exactly when no round starts off the record, and
  `CrashGuard.NoRoundOnUntrustedRecord` and `CrashOrder.GuardedResumeSafety` give the properties where no
  such write occurs.
- *No dispatch without a trusted record* fails moreover in a round in progress, which never looks again:
  `CrashRuns.HeadMovesMidRound` is the run, and `CrashGuard.DispatchesOnRecordIff` the exact condition.
- *COMPLETED means that every step was performed* fails when an unnamed step, performed again after a
  crash, is recorded under a number that is the name of a step not performed yet: `CrashRuns.StepIsLost`.
  `CrashRecord.FaithfulIffNeverAliases` says exactly when the record stays true,
  `CrashRecord.CompletedIsRecorded` gives the property under that condition, and
  `CrashRecord.NamedNeverAliases` that it holds wherever all steps are named.
- *One resume at a time* fails when a write from outside leaves the task open to a claim while it is being
  resumed: an audit (`CrashTeamRuns.AuditLetsTwoIn`, where a checkpointed step is then performed twice),
  an interruption (`CrashTeamRuns.InterruptLetsTwoIn`), or an operator's RETRY decided on the row as it was
  before the claim (`CrashTeamRuns.LateRetryLetsTwoIn`). `CrashTeam.AloneIffNeverOpens` is the exact
  condition over whole runs, `CrashTeam.SecondClaimIff` the one for a single write, and
  `CrashTeam.ClaimIsExclusive`, `CrashTeam.TeamResumeSafety` and `CrashTeam.GuardedTeamSafety` hold under
  it for any number of orchestrators.
- *A paused worker with an outstanding task stays paused* fails when a resume passed its tests earlier and
  sets the status late: `WorkerRuns.LateResume`. While the task is outstanding no resume passes the tests
  (`WorkerProtocol.OutstandingBlocksAdmission`).
- *One outstanding task per worker* fails when the worker answers a task twice and the task id is used
  again: `WorkerRuns.StrayLetsTwoIn`. `WorkerProtocol.CoveredIffNoStrayTaken` is the exact condition
  whatever the worker writes; `WorkerProtocol.OneAnswerEach` that it holds of every worker that answers
  each TASK at most once.
- It also fails when a worker id is used again, because the claim belongs to the id: a dispatch on the old
  process that releases late frees its successor (`WorkerRuns.LateReleaseFreesSuccessor`), and a spawn makes
  the new process known before it drops the old claim (`WorkerRuns.SpawnDropsNewClaim`).
  `WorkerRestart.KeptIffNeverStrips` is the exact condition over any number of processes,
  `WorkerRestart.OneOutstandingAcross` the property under it, and `WorkerRestart.SettledSuffices` what callers
  can do: give tasks only once every call on the earlier processes, and their clean-up, is over.
- *Dependencies of a dispatched task are verified at its tree* fails after a reconciliation to another
  tree: `StaleReconciliation.ClosureFails` is a run from a newly built coordinator.
  `DependencyClosure.DispatchFoundedIff` is the exact condition for one dispatch, which a caller can read
  before it, and `DependencyClosure.ClosureIff` the exact condition over whole runs. Reconciling to the
  current tree meets it (`DependencyClosure.DutySuffices`).
- *Covered criteria equal frozen criteria* is compared by set and length. `Qa.GateExactIff` says when the
  gate cannot be misled: no criterion is named twice, or there is only one. `Qa.MiscountedReviewPasses` is
  a review that passes with a criterion uncounted.
- *A second migration changes nothing* fails while a table remains whose name looks legacy but is none
  of the seven known ones: `Migration.SecondRun` is the exact condition.
- *A selective read that finds nothing changes nothing* fails at the end of the stream, whose marker it
  uses up: `StreamReader.MarkerIsUsedUp` is the case and `StreamReader.NothingFoundNothingChangedIff` the
  exact condition.

## Model

| member | source | states |
|---|---|---|
| OperatorProtocol.SwapSeesCurrent | subagentbridge/approval/operator_boundary.py:289-322 | a compare-and-swap from an arbitrarily old snapshot succeeds only if the snapshot is the current row |
| OperatorProtocol.NoLostUpdate | subagentbridge/approval/operator_boundary.py:215-322 | whatever a supervisor's memory holds, a durable row changes only into what the same decision, expiry or consumption makes of the current row |
| OperatorProtocol.RunKeepsInv | subagentbridge/approval/operator_boundary.py:324-365 | over every interleaving: contexts of snapshots and rows agree by nonce, counted approvals go back to a recorded decision, tickets to their row |
| OperatorProtocol.SingleUse | subagentbridge/approval/operator_boundary.py:552-617 | an action yields at most one ticket, bound to its row, issued below the row's expiry, after a recorded ALLOW_ONCE of a ruling operator |
| OperatorProtocol.IssueFacts | subagentbridge/approval/operator_boundary.py:571-617 | at the moment of issue the durable row is APPROVED, verified, unexpired and, where a decision verifier is set, bound; and it alone becomes CONSUMED |
| OperatorProtocol.TerminalForever | subagentbridge/approval/operator_boundary.py:258-287 | DENIED, EXPIRED and CONSUMED rows never change again in any run |
| OperatorProtocol.ContextForever | subagentbridge/approval/operator_boundary.py:258-322 | rows are never deleted and the context an operator ruled on never changes |
| OperatorBoundary.LoadRows | subagentbridge/approval/operator_boundary.py:324-365 | the reload loop reads back every row, active ones past their time as EXPIRED, and remembers every spent nonce |
| OperatorBoundary.IndependentOperatorApprovalBoundary.PersistTransition | subagentbridge/approval/operator_boundary.py:258-322 | refuses context changes and forbidden transitions, and writes only over the expected row |
| OperatorBoundary.IndependentOperatorApprovalBoundary.CreateRequest | subagentbridge/approval/operator_boundary.py:367-422 | memory first, insert second: a refused insert leaves the snapshot behind |
| OperatorBoundary.IndependentOperatorApprovalBoundary.ExpireIfDue | subagentbridge/approval/operator_boundary.py:424-444 | expires a due request by compare-and-swap, reloading when another process was first |
| OperatorBoundary.IndependentOperatorApprovalBoundary.ResolveByOperator | subagentbridge/approval/operator_boundary.py:446-540 | every refusal in order, and the memory shows a decision only once the table accepted it |
| OperatorBoundary.IndependentOperatorApprovalBoundary.ConsumeForExecution | subagentbridge/approval/operator_boundary.py:542-617 | every refusal in order, and the ticket is issued with the very row update that spends the approval |
| TaskDag.VisitOrders | subagentbridge/planner/budget.py:246-269 | the recursive search only appends, and lists what it reaches dependency-closed and without repeats |
| TaskDag.VisitFindsCycle | subagentbridge/planner/budget.py:260-261 | meeting a task that is still being visited exhibits a real cycle |
| TaskDag.OrderExcludesCycle | subagentbridge/planner/budget.py:237-269 | a complete dependency order rules out every cycle |
| TaskDag.PostOrderDecides | subagentbridge/planner/budget.py:237-269 | the search over the sorted tasks fails if and only if the graph has a cycle, and otherwise lists every task once, dependencies first |
| TaskDag.PushUnvisited | subagentbridge/planner/budget.py:266-268 | pushing in reverse makes the dependencies come off in declared order |
| TaskDag.SearchTask | subagentbridge/planner/budget.py:249-268 | the explicit-stack, two-colour loop terminates and returns exactly what the recursive search returns |
| TaskDag.SearchPlan | subagentbridge/planner/budget.py:246-269 | the whole loop equals the recursive post-order over the roots, and raises exactly when that meets a task being visited |
| TaskDag.CheckDependencies | subagentbridge/planner/budget.py:237-245 | a plan passes exactly when no task lists a dependency twice or an unknown one |
| TaskDag.ValidateTaskDag | subagentbridge/planner/budget.py:221-269 | shape errors exactly for ill-formed plans, "dependency cycle" only for cyclic ones, otherwise the dependency order |
| Budget.Conservation | subagentbridge/planner/budget.py:34-62 | over any run available equals initial minus all allowances taken plus all refunds |
| Budget.NeverMinted | subagentbridge/planner/budget.py:34-62 | balances never go negative and never exceed the ceiling, and reservations never exceed the workers |
| Budget.BudgetLedger.ReserveFor | subagentbridge/planner/budget.py:34-48 | the in-memory reservation with every refusal |
| Budget.BudgetLedger.ReleaseFor | subagentbridge/planner/budget.py:50-62 | the in-memory release with every refusal |
| DurableBudget.CountIsMeaning | subagentbridge/planner/budget.py:140-150 | counting the rows of one ledger id counts that ledger's reservations |
| DurableBudget.DebitRefines | subagentbridge/planner/budget.py:151-163 | the rows written by an admitted reservation stand for the ledger the in-memory form answers |
| DurableBudget.CreditRefines | subagentbridge/planner/budget.py:184-200 | likewise for an accepted release |
| DurableBudget.WritesKeepOthers | subagentbridge/planner/budget.py:120-203 | ledgers under other ids are untouched |
| DurableBudget.RunsRefine | subagentbridge/planner/budget.py:120-203 | whatever calls on whatever ledger ids interleave, each id goes through the in-memory run of its own calls |
| DurableBudget.DurableBudgetLedger.ReserveFor | subagentbridge/planner/budget.py:120-165 | the SQLite form refines the in-memory reservation |
| DurableBudget.DurableBudgetLedger.ReleaseFor | subagentbridge/planner/budget.py:167-203 | the SQLite form refines the in-memory release |
| Registry.IdentityRegistry.Register | subagentbridge/domain/registry.py:51-58 | a principal is registered once, and afterwards only the returned value passes for that id, in the registered role only |
| Registry.ReceiptIssuerRegistry.IssueReceipt | subagentbridge/domain/registry.py:80-87 | only a registered executor obtains a receipt |
| Registry.ReceiptIssuerRegistry.RecordEvidence | subagentbridge/domain/registry.py:89-99 | evidence needs a passing receipt of the same task, dispatch and tree |
| Registry.ReceiptIssuerRegistry.RecordVerdict | subagentbridge/domain/registry.py:101-124 | a verdict needs a QA principal and distinct, registered, bound evidence with passing receipts throughout |
| Qa.PassesExactly | subagentbridge/qa/adjudication.py:37-60 | over criteria that cannot mislead the comparison, the gate passes if and only if every check holds, with the covered criteria a rearrangement of the frozen ones |
| Qa.ComparisonExactIff | subagentbridge/qa/adjudication.py:50-51 | comparing sets and lengths accepts only rearrangements of the frozen criteria if and only if none is named twice or there is only one |
| Qa.GateExactIff | subagentbridge/qa/adjudication.py:37-60 | with everything else in order the gate itself passes only rearrangements exactly under that condition |
| Qa.MiscountedReviewPasses | subagentbridge/qa/adjudication.py:37-60 | a review that covers another criterion twice instead of a repeated one passes the gate |
| Qa.QaEvidenceGate.CheckSubmission | subagentbridge/qa/adjudication.py:37-60 | the gate's decision chain, and the verdict it registers |
| Engine.TaskAggregate.DispatchTask | subagentbridge/domain/engine.py:40-51 | an idempotency key is consumed once, and the attempt counts up |
| Engine.TaskAggregate.AcceptVerdict | subagentbridge/domain/engine.py:59-69 | only a standing verdict of the presenting QA principal moves the task on |
| Engine.TaskAggregate.Finalize | subagentbridge/domain/engine.py:71-78 | only the verdict's own QA principal finalizes, at the present tree |
| Engine.TaskAggregate.MoveTree | subagentbridge/domain/engine.py:80-92 | a tree change drops verification, verdict and dispatch, except that stranded tasks refuse it |
| Engine.TaskAggregate.ReconcileTask | subagentbridge/domain/engine.py:94-104 | only a stranded task is reconciled, by a PM |
| Coordinator.AdmissionNeverStrands | subagentbridge/team/coordinator.py:72-104 | over an owned ledger the pre-check cannot be overtaken: admission either changes nothing or holds its slot |
| Coordinator.PassedReviewFinalizes | subagentbridge/team/coordinator.py:153-163 | a review whose gate passes always goes through to VERIFIED with sound provenance |
| Coordinator.StepKeepsInv | subagentbridge/team/coordinator.py:68-218 | every call keeps receipts, provenance, slots and drawn identifiers in order |
| Coordinator.VerifiedProvenance | subagentbridge/domain/engine.py:53-78 | in every reachable state a VERIFIED task is at its verified tree with a registered accepted QA verdict for its active dispatch, all of whose receipts are passing and executor-issued for that task, dispatch and tree |
| Coordinator.NoSlotLeak | subagentbridge/team/coordinator.py:95-114 | in every reachable state the reservations are exactly the active dispatches, one each, of tasks that may hold a slot, and releasing any of them succeeds |
| Coordinator.ReleasedAtMostOnce | subagentbridge/team/coordinator.py:95-114 | over any run the slot of one dispatch is taken at most once and given back at most once, and is held at the end exactly if it was taken and not given back |
| Coordinator.FixRoundCap | subagentbridge/team/coordinator.py:132-175 | once three fix rounds are counted a task is never VERIFIED in any later state |
| DependencyClosure.DispatchFoundedIff | subagentbridge/team/coordinator.py:72-104 | after an admitted dispatch all direct dependencies are VERIFIED at the task's tree if and only if the task was at the tree of its dependencies |
| DependencyClosure.StepFoundedIff | subagentbridge/team/coordinator.py:68-218 | no call but a misaligned dispatch takes a verified dependency away from under a task that is under way or verified |
| DependencyClosure.ClosureIff | subagentbridge/team/coordinator.py:68-218 | at every point of a run everything under way or verified stands on dependencies verified at its tree, if and only if every admitted dispatch was at the tree of its dependencies |
| DependencyClosure.DependencyClosure | subagentbridge/team/coordinator.py:78-81 | in such runs this goes down every chain of dependencies |
| DependencyClosure.DutySuffices | subagentbridge/team/coordinator.py:179-218 | from one shared tree, reconciling stranded tasks to the current tree keeps every dispatch aligned |
| DependencyClosure.ReconcileKeepsOneTreeIff | subagentbridge/team/coordinator.py:179-193 | a reconciliation keeps the shared tree if and only if it goes to the current one |
| StaleReconciliation.ClosureFails | subagentbridge/team/coordinator.py:72-218 | a run from a newly built coordinator that ends with a task DISPATCHED at one tree over a dependency VERIFIED at another |
| TaskProgress.FrozenTaskCanBeVerified | subagentbridge/team/coordinator.py:72-177 | from any reachable state with a free slot a FROZEN task on verified dependencies can be taken to VERIFIED, leaving every other task, the budget and the slots as they were |
| SupervisedCoordinator.SupervisedCoordinator.BeginTask | subagentbridge/team/coordinator.py:72-104 | the admission checks in order, dispatch, then reserve; a refused reservation strands the task |
| SupervisedCoordinator.SupervisedCoordinator.ReleaseDispatch | subagentbridge/team/coordinator.py:106-114 | the active id is popped before the release, whose failure is swallowed |
| SupervisedCoordinator.SupervisedCoordinator.ReportProcessSucceeded | subagentbridge/team/coordinator.py:116-119 | only a developer's report for the current dispatch and tree counts |
| SupervisedCoordinator.SupervisedCoordinator.QaReview | subagentbridge/team/coordinator.py:121-177 | the fix-round counter is only raised by callers, the third rejection blocks, a pass finalizes and releases |
| SupervisedCoordinator.SupervisedCoordinator.ReconcileRecovery | subagentbridge/team/coordinator.py:179-193 | recovery by a PM releases the stranded slot |
| SupervisedCoordinator.SupervisedCoordinator.UpdateTree | subagentbridge/team/coordinator.py:195-218 | one tree change over all tasks: active dispatches are stranded, stranded ones left, the rest moved |
| SupervisedCoordinator.Build | subagentbridge/team/coordinator.py:41-63 | a coordinator exists only over a plan the validator accepted |
| Keys.ValueOfDecimal | subagentbridge/messaging/bus.py:42 | decimal length prefixes determine the number |
| Keys.AckKeyInjective | subagentbridge/messaging/bus.py:42 | acknowledgement keys determine message and recipient, whatever characters they contain |
| Keys.RecoveryKeyInjective | subagentbridge/storage/audit_ledger.py:234 | reconciliation keys determine session and evidence |
| Keys.MessageKeyInjective | subagentbridge/messaging/bus.py:30 | message keys determine the message |
| Keys.KeySpacesDisjoint | subagentbridge/messaging/bus.py:30-42 | no key of one kind is ever a key of another kind |
| AuditChain.ScrubCleans | subagentbridge/storage/audit_ledger.py:69-82 | after scrubbing no private key carries a value at any depth |
| AuditChain.ScrubFixesExactlyClean | subagentbridge/storage/audit_ledger.py:69-82 | scrubbing changes a payload if and only if there is something to hide |
| AuditChain.TailBinding | subagentbridge/storage/audit_ledger.py:170-184 | two streams that pass the check with one tail are equal row for row, or contain a digest collision or a preimage of the genesis value |
| AuditChain.TailPins | subagentbridge/storage/audit_ledger.py:85-86 | under an injective digest that avoids the genesis value, equal tails mean equal streams |
| AuditChain.RunKeepsInv | subagentbridge/storage/audit_ledger.py:120-254 | over any interleaving of writers: chains intact, numbers 1..n, keys unique, payloads scrubbed, every closed session proven in its stream |
| AuditChain.RunExtends | subagentbridge/storage/audit_ledger.py:137-162 | earlier rows are a preserved prefix, and streams nobody wrote to are untouched |
| AuditChain.CreatedExactlyOnce | subagentbridge/storage/audit_ledger.py:142-162 | a key is reported as created exactly once in any run, if it is there at the end and was not before |
| AuditChain.ReplayForever | subagentbridge/storage/audit_ledger.py:146-152 | a replay with the same type and content gets the row first written, any other content a conflict, at any later time |
| AuditChain.EvidenceClosesOnce | subagentbridge/storage/audit_ledger.py:213-254 | one evidence key closes one session once, even if the session is reopened |
| AuditChain.CheckpointMatchesIffUnchanged | subagentbridge/storage/audit_ledger.py:179-184 | a tail noted earlier matches later if and only if nothing was appended, or the digest is broken |
| AuditLedger.AuditLedger.CheckRows | subagentbridge/storage/audit_ledger.py:170-177 | the loop accepts exactly the chained streams and answers their tail |
| AuditLedger.AuditLedger.AppendOnce | subagentbridge/storage/audit_ledger.py:120-165 | check, replay or append, as one transaction |
| AuditLedger.AuditLedger.Verify | subagentbridge/storage/audit_ledger.py:179-184 | succeeds exactly for a chained stream whose tail is the expected one, if one is given |
| AuditLedger.AuditLedger.Read | subagentbridge/storage/audit_ledger.py:186-192 | a reader sees its own stream, checked |
| AuditLedger.AuditLedger.NoteUnreconciled | subagentbridge/storage/audit_ledger.py:202-206 | opens or reopens a session's recovery state |
| AuditLedger.AuditLedger.ReconcileClosed | subagentbridge/storage/audit_ledger.py:213-254 | proof row and closed state together or not at all |
| BusProtocol.BusRunKeepsInv | subagentbridge/messaging/bus.py:18-44 | over any interleaving a bus stream consists of queued messages, acknowledgements by addressees, and reconciliations |
| BusProtocol.QueuedOnce | subagentbridge/messaging/bus.py:27-31 | a message id is queued at most once |
| BusProtocol.AckedByAddressee | subagentbridge/messaging/bus.py:37-43 | an acknowledgement stands after its message, by the message's addressee |
| BusProtocol.AckedOnce | subagentbridge/messaging/bus.py:37-43 | a message is acknowledged at most once |
| BusProtocol.EnqueueAnswers | subagentbridge/messaging/bus.py:18-32 | True exactly for a new id, False exactly for this very message, a conflict otherwise |
| BusProtocol.AckPassesIff | subagentbridge/messaging/bus.py:34-40 | an acknowledgement passes exactly if the read saw the message queued to this recipient, however old the read |
| BusProtocol.AckAnswers | subagentbridge/messaging/bus.py:41-44 | a passing acknowledgement answers True exactly the first time and never conflicts |
| BusProtocol.FirstExactlyOnce | subagentbridge/messaging/bus.py:27-44 | of all calls under one message or acknowledgement key exactly one is told it was first |
| MessageBus.DurableMessageBus.Enqueue | subagentbridge/messaging/bus.py:18-32 | the refusals in order, then one append |
| MessageBus.DurableMessageBus.Ack | subagentbridge/messaging/bus.py:34-44 | read, check, then one append |
| CrashSafety.ReplayIffEvidenceGone | subagentbridge/recovery/crash_recovery.py:331-437 | a round on a valid checkpoint plans a recorded step anew if and only if the evidence behind the checkpoint does not stand: a recorded step without a name, an artifact gone, or nothing to show for a finished task |
| CrashSafety.NamedReplayIff | subagentbridge/recovery/crash_recovery.py:331-437 | the same of a list whose steps are all named, decided by the stored names, the artifacts and the finishing evidence alone |
| CrashSafety.ReplayedStep | subagentbridge/recovery/crash_recovery.py:331-392 | which recorded steps those are |
| CrashRuns.FinishedTaskIsReplayed | subagentbridge/recovery/crash_recovery.py:369-392 | from a task not started yet: a step checkpointed at the present HEAD is dispatched a second time although nothing vanished |
| CrashGuard.GuardedIffNeverErases | subagentbridge/recovery/crash_recovery.py:406-412 | the row names the steps observed done at every point after the first note if and only if no write puts back a copy that names none |
| CrashGuard.PlanOffRecordIff | subagentbridge/recovery/crash_recovery.py:406-412 | without a checkpoint of its own at the present HEAD a checkpointed task is planned if and only if the copy of the row taken at the claim names no step |
| CrashGuard.RoundsOnRecordIff | subagentbridge/recovery/crash_recovery.py:254-412 | over any run no round starts off the record exactly if no resumer looks at such a record with a copy that names no step |
| CrashGuard.NoRoundOnUntrustedRecord | subagentbridge/recovery/crash_recovery.py:254-269 | after any run with moved HEADs, foreign checkpoints, crashes and rewritten rows, no round of a checkpointed task is planned on a checkpoint that is not its own at the present HEAD, as long as no write erases the first note |
| CrashRuns.LateAuditErasesNote | subagentbridge/recovery/crash_recovery.py:61-85 | a run in which an audit writes back the payload it read before the first note, and the checkpointed step is planned and dispatched anew off the record |
| CrashGuard.DispatchOffRecordIff | subagentbridge/recovery/crash_recovery.py:436-445 | a dispatch within a round is made without a checkpoint valid at that moment exactly if HEAD moved since the plan, the round had no commit, or another dispatch wrote the newest row |
| CrashGuard.DispatchesOnRecordIff | subagentbridge/recovery/crash_recovery.py:254-481 | over any run whose rounds start on the record, every dispatch after the first checkpoint is on a valid record if and only if no round was so disturbed |
| CrashGuard.QuietRunOnRecord | subagentbridge/recovery/crash_recovery.py:254-481 | a task whose HEAD and checkpoints are left alone, on a real commit, plans and dispatches on the record throughout, whoever rewrites its row |
| CrashRuns.HeadMovesMidRound | subagentbridge/recovery/crash_recovery.py:436-445 | a run in which HEAD moves between two steps and the second is dispatched without a valid checkpoint |
| CrashRecord.CompletedIsRecorded | subagentbridge/recovery/crash_recovery.py:483-485 | a resume stores COMPLETED only when a checkpoint records every step and every step was really dispatched, whoever rewrites the row, as long as no unnamed step is recorded under the name of another one |
| CrashRecord.CompletedStaysRecorded | subagentbridge/recovery/crash_recovery.py:483-485 | and the record stays complete where rounds start on the record |
| CrashRecord.FaithfulIffNeverAliases | subagentbridge/recovery/crash_recovery.py:436-437 | no name in the record stands for a step that was not done, over any run, if and only if no such recording takes place |
| CrashRecord.NamedNeverAliases | subagentbridge/recovery/crash_recovery.py:436-437 | it never does where every step has a name |
| CrashRuns.StepIsLost | subagentbridge/recovery/crash_recovery.py:350-437 | a run in which an unnamed step takes the name of the next one, which is skipped, and COMPLETED is stored |
| CrashTeam.AloneIffNeverOpens | subagentbridge/storage/team_store.py:1329-1362 | for any number of orchestrators and outside writers: at most one resume at a time, under a status nobody can claim, throughout a run if and only if no outside write finds a resume under way and leaves the task open |
| CrashTeam.ClaimIsExclusive | subagentbridge/storage/team_store.py:1329-1362 | in such runs, while one resume is under way every other claim is refused |
| CrashTeam.SecondClaimIff | subagentbridge/storage/team_store.py:1329-1362 | after a write to a task under way another orchestrator gets the claim if and only if the write opened it |
| CrashTeam.RunProjects | subagentbridge/recovery/crash_recovery.py:202-485 | without such writes any interleaving of orchestrators is one run of one resumer |
| CrashTeam.TeamResumeSafety | subagentbridge/recovery/crash_recovery.py:202-485 | so resume safety carries over to any number of orchestrators |
| CrashTeam.GuardedTeamSafety | subagentbridge/recovery/crash_recovery.py:202-485 | in the terms of the orchestrators' own acts: whenever anybody plans, the evidence behind a valid checkpoint stands; no write erases a note or reopens the task |
| CrashTeamRuns.InterruptLetsTwoIn | subagentbridge/team/team_manager.py:242-270 | from any claimable task: an interruption during a resume lets a second orchestrator in, with no audit in the run |
| CrashTeamRuns.LateRetryLetsTwoIn | subagentbridge/recovery/crash_recovery.py:96-138 | from any task an operator may retry: a RETRY decided before a claim and stored after it lets a second orchestrator in |
| CrashTeamRuns.AuditLetsTwoIn | subagentbridge/recovery/crash_recovery.py:29-93 | a run in which an audit lets a second orchestrator in and a checkpointed step is dispatched again |
| CrashSafety.SavedRows | subagentbridge/storage/team_store.py:1575-1600 | saving a checkpoint writes its own row and no other; on a conflict the stored team and creation time stay |
| CrashOrder.RemainingSuffix | subagentbridge/recovery/crash_recovery.py:350-352 | skipping exactly the first steps leaves the rest of the list in order |
| CrashOrder.LatestIsTop | subagentbridge/storage/team_store.py:1602-1614 | the checkpoint with the highest index records the most steps |
| CrashOrder.PlanTakesUpTheList | subagentbridge/recovery/crash_recovery.py:331-431 | on good ground a round takes up the list exactly where the checkpoints leave off |
| CrashOrder.RoundReplaysIff | subagentbridge/recovery/crash_recovery.py:331-431 | and off good ground, and only there, it plans a step that some checkpoint records |
| CrashOrder.NeverReplansIff | subagentbridge/recovery/crash_recovery.py:254-431 | over any run no round plans a checkpointed step if and only if each is planned with a valid checkpoint whose evidence stands, once there is any checkpoint |
| CrashOrder.ResumeSafety | subagentbridge/recovery/crash_recovery.py:433-485 | over any number of crashes, outside writes and rounds planned on good ground, no checkpointed step is dispatched again and dispatches follow list order |
| CrashOrder.GuardedResumeSafety | subagentbridge/recovery/crash_recovery.py:406-485 | the same where the evidence behind valid checkpoints stands at each plan and no write erases the note |
| CrashResume.DriveIsRun | subagentbridge/recovery/crash_recovery.py:433-485 | an uninterrupted step loop is one run of the protocol |
| CrashResume.StepLoopIsDrive | subagentbridge/recovery/crash_recovery.py:436-481 | the loop on the stored rows and the protocol's steps come to the same end |
| CrashResume.TaskRecovery.RunSteps | subagentbridge/recovery/crash_recovery.py:433-485 | dispatch, note, checkpoint for each remaining step, then COMPLETED |
| CrashResume.ResumedIsRun | subagentbridge/recovery/crash_recovery.py:192-485 | the call as a whole, refusal before the claim included, is one run of the protocol |
| CrashResume.TaskRecovery.ResumeTaskFromCheckpoint | subagentbridge/recovery/crash_recovery.py:192-485 | refuse an orphaned worker, claim, plan, run: the whole call as a function of the stored state |
| TeamAudit.TeamAudit.ReconcileTeamAfterCrash | subagentbridge/recovery/crash_recovery.py:29-93 | dead workers fail, their in-flight work is failed or set aside, nothing else changes and nothing becomes COMPLETED |
| StreamReader.ReadMatchingSelects | subagentbridge/execution/worker_process.py:69-97 | the first visible match is delivered and only it removed; otherwise no line moves |
| StreamReader.ReadMatchingTakesOut | subagentbridge/execution/worker_process.py:69-97 | everything a selective read does to what is held: it takes out one line, or one marker, or nothing |
| StreamReader.NothingFoundNothingChangedIff | subagentbridge/execution/worker_process.py:83-97 | a read that finds nothing leaves all as it was, the end marker included, if and only if it meets no marker |
| StreamReader.MarkerIsUsedUp | subagentbridge/execution/worker_process.py:83-97 | a read at the end of the stream uses up its marker |
| StreamReader.EachLineOnce | subagentbridge/execution/worker_process.py:60-97 | over any mix of reads the lines delivered and waiting are together the lines that arrived, text by text, none delivered twice, and waiting lines keep their order |
| StreamReader.TimedStreamReader.ReadLine | subagentbridge/execution/worker_process.py:60-67 | pending lines before the queue |
| StreamReader.TimedStreamReader.ReadLineMatching | subagentbridge/execution/worker_process.py:69-97 | the loop that sets unmatched lines aside and puts them back in front |
| WorkerProtocol.RunKeepsInv | subagentbridge/execution/worker_process.py:536-606 | over every interleaving in which no stray RESULT is taken, the claim belongs to exactly one thread on its way in or out, or to the one written task |
| WorkerProtocol.CoveredIffNoStrayTaken | subagentbridge/execution/worker_process.py:552-606 | whatever the worker writes, the claim covers the outstanding task throughout a run if and only if no RESULT is consumed that answers no task written |
| WorkerProtocol.OneAnswerEach | subagentbridge/execution/worker_process.py:552-606 | from a worker that answers each TASK at most once no such RESULT is ever consumed |
| WorkerRuns.StrayLetsTwoIn | subagentbridge/execution/worker_process.py:552-606 | a run in which a second answer to a reused task id frees a working worker, and two tasks are outstanding |
| WorkerProtocol.OneOutstanding | subagentbridge/execution/worker_process.py:536-565 | a live worker has at most one TASK whose RESULT is unconsumed, the claim is set meanwhile, and it can still be collected by its id |
| WorkerProtocol.OutstandingBlocksAdmission | subagentbridge/execution/worker_process.py:637-644 | meanwhile nobody is admitted, no harness is switched, and no resume passes its tests |
| WorkerRuns.LateResume | subagentbridge/execution/worker_process.py:743-758 | a run in which a resume that passed its tests before sets a paused worker with an outstanding task to IDLE |
| WorkerRestart.KeptIffNeverStrips | subagentbridge/execution/worker_process.py:214-400 | over any number of processes under one worker id, the claim and the noted id stand for exactly what is under way with the present one if and only if no late step of an earlier one, nor the clean-up after it, drops what the present one has set, and no stray RESULT is taken |
| WorkerRestart.OneOutstandingAcross | subagentbridge/execution/worker_process.py:396-398 | then at most one task is outstanding, claimed and collectable, across restarts |
| WorkerRestart.SettledSuffices | subagentbridge/execution/worker_process.py:214-400 | which holds if tasks are given only once every call on the earlier processes and the clean-up after them is over, to workers that answer each TASK at most once |
| WorkerRuns.SpawnDropsNewClaim | subagentbridge/execution/worker_process.py:366-398 | a run in which a spawn drops the claim of a dispatch to the process it has just made known, and two tasks are outstanding |
| WorkerRuns.LateReleaseFreesSuccessor | subagentbridge/execution/worker_process.py:567-606 | a run in which a dispatch that consumed a RESULT of the old process frees the new one while it is at work |
| WorkerProtocol.ReleaseOnlyWhenConsumed | subagentbridge/execution/worker_process.py:653-694 | the claim is given back only when nothing is outstanding |
| WorkerProtocol.WindowsNeverOverlap | subagentbridge/execution/worker_process.py:770-777 | on the wire no TASK and no RECONFIGURE comes between a TASK and the consumption of its RESULT |
| WorkerController.DispatchRun | subagentbridge/execution/worker_process.py:536-606 | how an uninterrupted dispatch leaves the worker: free, claimed after a timeout, or untouched |
| WorkerController.WorkerProcessController.DispatchTaskToWorker | subagentbridge/execution/worker_process.py:495-606 | ERROR for a worker that is not alive; otherwise the bookkeeping of a dispatch is the protocol's, for one worker only |
| WorkerController.WorkerProcessController.CollectAsyncResult | subagentbridge/execution/worker_process.py:653-694 | only the exact outstanding task is collected, and that frees the worker |
| WorkerController.WorkerProcessController.PauseWorker | subagentbridge/execution/worker_process.py:728-741 | an undisturbed pause is the protocol's test and change; only live idle or running workers pause, claim untouched |
| WorkerController.WorkerProcessController.ResumeWorker | subagentbridge/execution/worker_process.py:743-758 | an undisturbed resume is the protocol's two tests and change; only live unclaimed paused or interrupted workers resume |
| WorkerController.WorkerProcessController.SwitchWorkerHarness | subagentbridge/execution/worker_process.py:760-914 | the refusals in order; an unconfirmed switch costs the worker its process and claim, and its exit code decides between ARCHIVED and FAILED |
| Migration.MergedRows | subagentbridge/storage/team_store.py:331-352 | merging takes every legacy row over up to the tolerance and alters no current one |
| Migration.ZeroLoss | subagentbridge/storage/team_store.py:331-646 | after a commit every row is still found under its old table name, current rows are untouched, no row is invented |
| Migration.ZeroLossQueue | subagentbridge/storage/team_store.py:417-474 | the queue is carried over exactly, with defaults for missing columns |
| Migration.ScriptMigrates | subagentbridge/storage/team_store.py:240-646 | in whatever order the missing rows are inserted one by one, they add up to the migrated database |
| Migration.SecondRunFailsIff | subagentbridge/storage/team_store.py:279-330 | the second time only a backup can fail, and only if something still looks legacy |
| Migration.SecondRun | subagentbridge/storage/team_store.py:279-290 | a second run changes nothing exactly when no unknown legacy-looking table remains, its backup fails, or the clock stands still |
| Migration.SecondRunOfKnownTables | subagentbridge/storage/team_store.py:286-290 | with the seven known tables only, migrating is idempotent |
| SchemaMigration.TeamDatabase.TakeRows | subagentbridge/storage/team_store.py:422-453 | the queue loop finds exactly the conflicts and otherwise inserts exactly the missing rows |
| SchemaMigration.TeamDatabase.MergeTable | subagentbridge/storage/team_store.py:332-352 | conflict check, insert, and a row-by-row verification that can never fail |
| SchemaMigration.TeamDatabase.MigrateSchema | subagentbridge/storage/team_store.py:238-655 | the whole migration in place, in one transaction: at whatever statement the connection gives out, and whatever is wrong with the data, the database is as it was found; otherwise it is migrated |
| DispatchTracker.AttemptsInOrder | subagentbridge/domain/dispatch.py:37-100 | a task's history is attempts 1, 2, 3, ... in order, and only the newest can be ACTIVE |
| DispatchTracker.HistoryOnlyGrows | subagentbridge/domain/dispatch.py:59-99 | what was recorded stays recorded |
| DispatchTracker.StaleNeverCompletes | subagentbridge/domain/dispatch.py:73-100 | otherwise it never completes in any run |
| DispatchTracker.DispatchIdempotencyTracker.StartDispatch | subagentbridge/domain/dispatch.py:37-71 | supersedes an ACTIVE prior attempt and becomes the one that can complete |
| DispatchTracker.DispatchIdempotencyTracker.CompleteDispatch | subagentbridge/domain/dispatch.py:86-100 | missing, stale and finished dispatches are refused, in that order |
| Budget.RefundBounded | subagentbridge/planner/budget.py:50-62 | of a single call: a refund never exceeds what its own reservation took |
| DispatchTracker.StaleRevivedIffReissued | subagentbridge/domain/dispatch.py:73-84 | of a single call, the step of DispatchTracker.StaleNeverCompletes: a stale dispatch can complete again exactly if its very id is handed out for the task once more |
| DispatchTracker.CompletionAndSupersessionKill | subagentbridge/domain/dispatch.py:46-99 | of a single call: completing, or starting a newer attempt under another id, is exactly what makes a dispatch stale |

## Left out

- Operator approval: the memory-only boundary without a database, `list_pending` and `get_request` (sequences of expiry steps), ledger appends, HMAC signatures and their checks (answers are parameters), path resolution, commit failures of SQLite.
- Plan validation: the order in which a plan's shape errors are met follows dictionary insertion order, which a map does not record.
- Coordinator: the aggregates are values in the coordinator's dictionary rather than objects, so sharing one aggregate between two holders is not captured (the object itself is `Engine.TaskAggregate`); threads inside one coordinator call, snapshots and metrics are not modelled; a tree identifier that fails its format check midway through `update_tree` is excluded.
- Registries: the message registry, and format checks of identifiers.
- Audit ledger: JSON text and floats (payloads are values), other processes editing the file, backups and the schema version table.
- Message bus: payloads that are not text.
- CrashSafety.ReplayIffEvidenceGone: speaks of the positions a checkpoint was written for, which are not stored, because the stored names do not tell which unnamed step a number was; `CrashSafety.NamedReplayIff` is the form in stored terms where every step is named.
- Crash recovery: payloads that are not step lists, token counts, worker respawning, the approval dialogue (granted or not is a parameter), cancelled and re-queued copies of a task. `Checkpoint.steps` and `Resumer.done` are history kept for the proofs; no step decides by them.
- CrashRecovery: the worktree path is taken to be set; without one only an empty step list could be found complete.
- Outside writers of the queue row (the audit's row for this task, `interrupt_worker`, `reconcile_ambiguous_task`, `update_queue_status`, the handoff): they appear as steps of the runs, a read and a write of the whole row; the handoff's duplicate check, reconciliation notes and steering instructions are not modelled. Steering updates touch neither status nor payload.
- Worker IPC: process creation up to the point where the new process is made known, two spawns of one worker id at the same time, a termination that overtakes a spawn and drops the new process's handles, a process that dies while a harness switch holds the lock (it ends as a failed switch), heartbeats, token storage between consuming and releasing; a refused write delivers nothing; the session row saved after a status change.
- Migration: the backup itself (whether it succeeded is a parameter), a rollback that fails and a process killed within the transaction (SQLite's journal answers for both), NULLs in columns declared NOT NULL, rounding of REAL columns.
- Input shapes everywhere: printable and bounded text, identifiers made of blanks only, booleans passed as integers, malformed mappings; they are taken as met.
- Everything around these cores: the MCP server, tools, process isolation, worktrees and artifact hashes, harness adapters, model routing, policy tables, the in-process approval broker, the command-line tools. They are wiring, foreign calls or flat checks.
