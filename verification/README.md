# Crash recovery of the offboarding orchestrator

A Dafny model of the workflow engine that offboards an employee in seven steps, pausing twice
for a human, and that may be killed at any moment and continued later. Its promise is that a
killed and continued run ends in the same world as a run nothing ever happened to: no access is
revoked twice, nothing is revoked without approval, budgets are not refilled by a restart.

## How it is modelled

* `Durable.Store` is everything that outlives a process: the `runs`, `step_trace`,
  `side_effects` and `provider_effects` tables and LangGraph's checkpoints. `World` is its value
  between two commits. Five history fields are read by no operation: `calls` counts the real tool
  calls of each run, `statusLog` lists every status written for it, `flaggedAt` is where its
  checkpoint stood when its cancel flag was first raised, `answers` lists what the model answered
  for it, and `mishaps` counts everything that went wrong (deaths, tool and model failures, answers
  that do not fit, cancellations from another process).
* Every operation returns `Ok | Raised(e) | Crashed`. `Store.Dies` is asked after every commit,
  so a process may die between any two of them; `Crashed` is propagated and never handled. Tools,
  provider queries and the model answer arbitrarily, before or after their effect landed.
* The repositories, the ledger, the executor, the nodes, the graph and the service are classes
  and methods over that store, like the original's. The three tables of rules (transitions, plan
  validation, idempotency keys) are functions, as there.
* `LedgerProtocol.RunOnceSpec` is one ledger call as a function of the adversary's choices.
  `Ledger.SideEffectLedger.RunOnce` is proved against it and the at-most-once theorems are about
  all sequences of such calls. `Interleaving` breaks the call into its single reads and commits,
  for any number of drivers at once, and shows that every call is a run of those steps.
* `Invariant.RunInv` is what the two stores agree on about one run. Every node, every graph
  invocation and every request keeps it on all three outcomes. `Evolves` says what a stretch of
  one driver's work can never do: touch another run or a key that is not one of the run's three,
  move a checkpoint back, rewrite what a node returned, change a completed ledger row or an
  applied effect.
* `RunService.Served` is the contract of every request. `RunHistory.IsHistory` are all sequences
  of requests on all runs, and the main results are about every such history.
* `CrashTransparency.CleanRun` is the crash-free run: seven plain steps over its inputs, with no
  ledger, no retry and no checkpoint. The recovery theorem says that every checkpoint of every
  history is one of its states. `EveryCompletedLifeIsClean` states it from the empty store.
* `RequestLaws` says of each request, from the run's row and the request's own fields, when it is
  refused and how it ends when nothing goes wrong. `Provenance` says where everything in the stores
  comes from: decisions, signatures and budgets from requests, the plan from the model, the labels
  of ledger rows and pauses from the steps that wrote them.

Requests on one run do not overlap (requests on different runs may alternate freely), except
that `request_cancel` may arrive from elsewhere at any guard and during any node.

## What LangGraph is taken to do

A checkpoint advances when a node returns; an interrupted node is run again from its top;
`interrupt` without a value pauses, with one returns it; the value given to a resume is either
saved with the checkpoint before the node runs or held in memory only, and both are allowed at
every resume; `invoke(None)` at END returns, and on a thread without a checkpoint it raises.

## What the code does against its own documentation

* `offboarding/tools/ledger.py:201-202` says that a provider that raises while being queried is
  treated as unable to answer, which keeps the call on the fail-closed path. For a tool that has
  a `lookup`, the code reads the exception as "not landed" and calls the tool again
  (`LedgerProtocol.RaisingLookupIsReadAsNotLanded`). At-most-once holds for a tool exactly when
  its provider deduplicates, or has a `lookup` that never raises, or has no `lookup` and tells
  the truth when it refuses for good (`LedgerProtocol.AtMostOnceIffSafe`).
* `offboarding/llm/gemini.py:98` leaves transient model failures to the step's retry policy. The
  planning step does not go through the executor: a transient failure of its one model call
  leaves one failed planning row and ends the run as FAILED(`tool_failed`)
  (`CrashTransparency.TransientModelFailuresAreFinal`).
* A run whose process dies between its RUNNING status and its first checkpoint can never end:
  resuming raises an exception nobody translates and cancelling only sets a flag
  (`RunHistory.AStartCutShortStrands`). Cancelled and continued with nothing going wrong, a
  RUNNING run ends if and only if its first checkpoint was written
  (`RunHistory.ARunningRunEndsIffItHasACheckpoint`).
* `completed` ledger rows are final for one driver at a time. With several, a completed row stays
  completed over every continuation if and only if no driver has already decided to mark it in
  progress or failed (`Interleaving.CompletedIsFinalIff`); the result in it stays in any case.
* `try_reserve` reports a broken foreign key as a key already taken, so `run_once` for a run that
  does not exist calls itself until the interpreter's recursion limit, having done nothing
  (`Ledger.SideEffectLedger.RunOnce`). The executor reads the run first and never gets there.
* Receipt identifiers are the last twelve characters of the key, so two runs share them
  (`Keys.ReceiptIdsDoNotDependOnTheRun`). The keys themselves never collide, whatever the run
  identifiers are (`Invariant.RenderedKeysDiffer`).

## Model

| member | source | states |
|---|---|---|
| CrashTransparency.CompletedRunsMatchTheCleanRun | offboarding/orchestration/run_service.py:187-222 | the recovery theorem: a run that ends COMPLETED after any schedule of deaths, failures, resumes and other requests leaves in its checkpoint, under all its ledger keys and with all providers exactly what the crash-free run over the same inputs leaves, and nothing else |
| CrashTransparency.CheckpointsAreCleanStates | offboarding/orchestration/nodes.py:232-298 | the simulation at every point: a checkpoint equals the crash-free state at its position, effects behind it are settled with that run's receipts in both stores, those ahead do not exist, the one at hand is absent or that receipt |
| CrashTransparency.EveryCompletedLifeIsClean | offboarding/orchestration/run_service.py:187-222 | the recovery theorem for every history from the empty store, whose HR record is then the directory's entry for the employee |
| CrashTransparency.CompletedLivesAgree | offboarding/orchestration/run_service.py:205-211 | two arbitrary lives of a run that took the same inputs and completed agree on state, ledger rows and provider effects, whatever happened to each |
| CrashTransparency.NoStrayEffects | offboarding/orchestration/nodes.py:241-249 | over every history no request on any run writes a ledger row or a provider effect under a key that is not one of that run's three |
| CrashTransparency.ReceiptsStay | offboarding/orchestration/nodes.py:366-392 | the receipt an effect gets is determined by the state at its node and is the same however much later it is recomputed, so a re-run node asks for the same effect |
| CrashTransparency.ApprovalPrecedesEveryEffect | offboarding/orchestration/nodes.py:184-224 | any trace of a revocation, paperwork or archive implies that some request approved the run and that its checkpoint holds the approval; a run failed by rejection has none |
| CrashTransparency.EveryValueWasBrought | offboarding/orchestration/run_service.py:144-181 | every decision and signature in a checkpoint, saved or consumed, has, field by field, the approval, approver and note, or the document and date, of a request on that run, and only signatures reach the second gate |
| CrashTransparency.RevocationsCoverTheRecord | offboarding/llm/provider.py:54-84 | plan fidelity end to end: the provider's one revocation lists, as a set, exactly the systems the HR directory lists for the run's own employee, and at least one, whatever the model answered and however often nodes were replayed |
| CrashTransparency.RecordsComeFromTheDirectory | offboarding/orchestration/nodes.py:94-113 | over every history the HR record in a checkpoint is the directory's entry for the run's own employee |
| CrashTransparency.TransientModelFailuresAreFinal | offboarding/orchestration/nodes.py:132-143 | a request asks the model at most once; a transient failure of that call leaves exactly one failed planning row, charges nothing, and the run is FAILED(`tool_failed`) unless the process dies |
| CrashTransparency.CleanReceiptsSpelledOut | offboarding/orchestration/nodes.py:370-383 | what the crash-free run leaves, written out without the tools: the revocation names the planned systems, the paperwork went to the employee's address with the checklist's length, the archive quotes both and the approver |
| CrashTransparency.FailureReasonsMeanWhatTheySay | offboarding/orchestration/run_service.py:273-300 | every FAILED run in every history: a rejected one stands at the first gate and an unplannable one at planning, both without effects; a budget failure means a budget is used up; `tool_not_allowed` and `needs_reconciliation` do not occur |
| CrashTransparency.RejectionsWereMade | offboarding/orchestration/nodes.py:205-217 | a run FAILED with `approval_rejected` was rejected by some request on it |
| CrashTransparency.ARejectionEndsTheRun | offboarding/orchestration/run_service.py:130-142 | after a rejection that was served to the end the run is lost for good and no effect of it exists, whatever is requested later |
| CrashTransparency.EffectsHappenAtMostOnce | offboarding/tools/ledger.py:88-159 | in every store a history reaches, each of the three effects was applied at most once and is the receipt the checkpoint determines |
| CrashTransparency.StatusTellsTheEffects | offboarding/orchestration/run_service.py:258-311 | two-store agreement by status: PAUSED(hr_approval) means no effect exists, PAUSED(signed_document) exactly the first two are settled, COMPLETED all three |
| CrashTransparency.ToolCallsStayWithinTheAllowance | offboarding/tools/executor.py:234-242 | over a run's whole life, restarts included: real tool calls ≤ `tool_call_count` ≤ max(0, m) and `step_count` ≤ max(0, n), where m and n are the run's own allowances, and these are the ones the request that created the run asked for |
| CrashTransparency.TheTraceIsAppendOnly | offboarding/persistence/trace.py:48-81 | every later trace extends every earlier one row by row and is a well-formed log; a run waiting at a gate has that gate's pause as the gate's latest row |
| RunHistory.TheInvariantHoldsThroughout | offboarding/orchestration/run_service.py:8-19 | the invariant of both stores holds for every run after every prefix of every history, deaths included |
| RunHistory.RunsOnlyGrow | offboarding/orchestration/graph.py:37-45 | over every history a checkpoint never moves back, returned fields stay, budgets stay as granted, an applied effect and a completed ledger row never change |
| RunHistory.TerminalRunsAreOver | offboarding/domain/run.py:91-107 | after COMPLETED, FAILED or CANCELLED no request whatever changes the run's row, checkpoint, ledger rows or effects |
| RunHistory.StatusesFollowTheTable | offboarding/persistence/runs.py:105-149 | the log of every status write, those of requests that died half-way included, is at every point of a history a path in the transition table from PENDING to the present status, is only ever added to, and has nothing after a terminal entry |
| RunHistory.RequestsWriteTheirStatuses | offboarding/orchestration/run_service.py:147-149 | what a served request wrote: RUNNING and then the verdict for an approval, rejection or signature, PENDING before them for a new run, the verdict alone for a continuation; a refused request wrote nothing |
| RunHistory.StepsOfACompletedRun | offboarding/orchestration/nodes.py:54-74 | a run that completes passed at least 9 guards and at most 9 + 2c, c being its requests that were cut short: exactly 9 when none was |
| RunHistory.OnlyCutShortRequestsWasteSteps | offboarding/orchestration/nodes.py:172-182 | the same at every point of a life that is not lost: the guards beyond what a crash-free run needs to stand here are paid by cut-short requests, two each |
| StepBound.TheStepBoundIsReached | offboarding/orchestration/nodes.py:172-182 | the bound is exact: for every c there is a life with c cut-short requests from which every undisturbed continuation completes with exactly 9 + 2c steps |
| StepBound.TwoGuardsAreWasted | offboarding/orchestration/nodes.py:172-182 | how two guards go: an approval whose process dies right behind the guard with its value only in memory, and the continuation that pauses again |
| RunHistory.EveryDriveCostsAStep | offboarding/orchestration/run_service.py:213-222 | every request that passes its check, drives the graph and does not die pays a guard or leaves the run terminal |
| RunHistory.AtMostOneDriveMoreThanSteps | offboarding/orchestration/run_service.py:258-311 | so a run's life has at most max(0, n) + 1 such requests, n being the steps that the request that created it asked for |
| RunHistory.RunsAreWhatWasAskedFor | offboarding/persistence/runs.py:68-84 | over every history from before the run existed, some request created it, and the row has at every later point exactly that request's employee and budgets |
| RequestLaws.RefusalsFollowTheRow | offboarding/orchestration/run_service.py:321-339 | over every history, each error by which a request is refused (row exists, no such run, wrong status or pause) comes exactly when the run's row says so, and a refused request changes nothing |
| RequestLaws.CancellationsAreNeverRefused | offboarding/orchestration/run_service.py:245-252 | a cancellation of a PENDING, RUNNING or PAUSED run is never refused: RUNNING is only flagged, the others become CANCELLED |
| RequestLaws.CancelledRunsWereCancelled | offboarding/orchestration/run_service.py:276-279 | over every history a CANCELLED run is flagged or some request asked to cancel it |
| RequestLaws.BudgetFailuresAreDue | offboarding/orchestration/run_service.py:283-285 | an undisturbed request on an unflagged run, for a known employee and with an approving value or none, ends FAILED(`budget_exceeded`) if and only if the steps and calls left do not cover the way to its next stop |
| RequestLaws.UndisturbedStarts | offboarding/orchestration/run_service.py:295-300 | an undisturbed start waits for HR if it grants three steps and a call, else fails for want of budget; for an employee outside the directory it ends FAILED(`tool_failed`) at the fetch, charging one call and leaving one row, failed with PermanentToolError and not retryable |
| RequestLaws.UndisturbedDecisions | offboarding/orchestration/run_service.py:280-285 | an undisturbed approval reaches the signature if four steps and two calls are left, else fails for want of budget; a rejection with a step left ends FAILED(`approval_rejected`) |
| RequestLaws.UndisturbedSignatures | offboarding/orchestration/run_service.py:302-311 | an undisturbed signature completes the run if two steps and a call are left, and otherwise fails it for want of budget |
| Provenance.DecisionsAreRecordedAsGiven | offboarding/orchestration/run_service.py:150-180 | a request that took its run past a gate left exactly its own approver and note, or document and date, in the checkpoint, and the first gate was passed only by an approval |
| Provenance.ArchivesNameTheApprover | offboarding/orchestration/nodes.py:366-392 | over every history the approver in the archive and in the checkpoint is the one some approving request on that run named, and the signed document and its date are those of one signing request |
| Provenance.PlansComeFromTheModel | offboarding/orchestration/nodes.py:138-149 | over every history the checklist and notes in a checkpoint are, item by item, the model's last answer for that run, that answer fits the HR record, and the planning step's latest trace row is completed and lists that checklist's systems |
| Provenance.UnfitAnswersFailTheRun | offboarding/orchestration/run_service.py:289-291 | a request whose process lives leaves its run FAILED(`invalid_plan`) if and only if the model answered it with something that does not fit the HR record |
| Provenance.LedgerRowsAreLabelled | offboarding/persistence/side_effects.py:47-57 | over every history the ledger row of each effect carries that run, the step that reserves it and that effect's tool |
| Provenance.PausesSayWhatTheyWaitFor | offboarding/orchestration/nodes.py:174-181 | a run that waits has as its gate's latest row the pause it waits in, with its reason and with the checklist's length or the document sent out |
| RunHistory.CancelledRunsGoNoFurther | offboarding/orchestration/nodes.py:64-74 | whenever the flag is raised, also while a node is in flight: over all histories the run ends at most one node past where its checkpoint stood then, no effect of a later node exists in either store, and COMPLETED means `finalize` was in flight or the checkpoint at the end |
| RunHistory.FlaggedRunsStandStill | offboarding/orchestration/run_service.py:228-252 | for a flag set while nobody is inside a step the checkpoint and the effects do not move at all |
| RunHistory.AnAnsweredGateStaysAnswered | offboarding/orchestration/run_service.py:321-339 | after a decision or signature that was served to the end, no second one is ever admitted, in any continuation |
| RunHistory.APassedGateNeverRecurs | offboarding/orchestration/graph.py:37-45 | a run whose checkpoint is past a gate never pauses for that gate's reason again |
| RunHistory.ARunningRunEndsIffItHasACheckpoint | offboarding/orchestration/run_service.py:205-222 | every undisturbed cancel and continue of a RUNNING run whose driver is gone ends it if and only if its first checkpoint exists |
| RunHistory.StrandedRunsStayStranded | offboarding/orchestration/run_service.py:75-80 | a run that died after RUNNING and before its first checkpoint stays RUNNING and without one through every history |
| RunHistory.AStartCutShortStrands | offboarding/orchestration/run_service.py:72-80 | such runs arise: the first request ever made, cut short there, leaves one, and no later history ends it |
| RunHistory.RecoveredRunsComplete | offboarding/orchestration/run_service.py:187-222 | recovery is live: any run that is not over, flagged or stranded and has budget for the rest completes, when continued without further mishaps, in exactly the requests, guards and calls that were left |
| RunHistory.UndisturbedRunsComplete | offboarding/orchestration/run_service.py:65-81 | start, approve, sign with nothing going wrong ends COMPLETED with exactly 9 steps and 4 charged calls, for every employee the directory knows and every budget of at least that much |
| RunService.Service.StartRun | offboarding/orchestration/run_service.py:65-81 | meets `Served`: on every outcome the invariant holds and nothing else was touched; the new row has the employee and budgets asked for; the row returned is the stored one, never PENDING or RUNNING; a used identifier changes nothing |
| RunService.Service.ResolveApproval | offboarding/orchestration/run_service.py:144-160 | meets `Served`: refused with the store unchanged unless PAUSED(hr_approval); the gate is passed only with this value and only if it approves; without mishaps it ends as the budget and the decision say |
| RunService.Service.SubmitSignedDocument | offboarding/orchestration/run_service.py:162-181 | the same for PAUSED(signed_document), whose gate is passed with this document and date |
| RunService.Service.ResumeRun | offboarding/orchestration/run_service.py:187-222 | meets `Served`: refused unless RUNNING; raises on a thread without a checkpoint exactly then and changes nothing; otherwise continues from the checkpoint |
| RunService.Service.CancelRun | offboarding/orchestration/run_service.py:228-252 | meets `Served`: PENDING and PAUSED become CANCELLED at once, RUNNING is only flagged, a terminal run is refused; nothing but the row changes |
| RunService.Service.Advance | offboarding/orchestration/run_service.py:258-319 | each way the graph ends gets its one verdict, CANCELLED only for a flagged run; writing it is always a legal move, so no request provokes `InvalidStateTransition` |
| RunService.VerdictsFit | offboarding/orchestration/run_service.py:273-311 | the status and reason chosen for any end of the graph are allowed by the table and keep both stores in agreement |
| RunService.DrivingServes | offboarding/orchestration/run_service.py:258-311 | a request that began, ran the graph and wrote its verdict has done all `Served` says: lifecycle, step accounting, gates, cancellation, delivery |
| Graph.CompiledGraph.Invoke | offboarding/orchestration/graph.py:67-85 | meets `GraphEnds`: where an invocation may stop and at what cost in guards on each of the three outcomes, that a flagged run makes no progress, that gates consume exactly the value given, and which of the ends an undisturbed one has |
| Graph.CompiledGraph.Step | offboarding/orchestration/nodes.py:64-74 | a flag raised while a node was in flight stops the invocation before the next node: nothing moves and no effect appears, so only the node in flight could still call tools |
| Graph.BuildGraph | offboarding/orchestration/graph.py:67-85 | the loops over `WORKFLOW` build exactly one edge out of START and out of each node, to the next one, so the approval gate is the only way into the revocation |
| Graph.CompiledGraph.Follow | offboarding/orchestration/graph.py:80-83 | in a linear wiring the edge out of the node that returned leads to the next position |
| Nodes.Workflow.Guard | offboarding/orchestration/nodes.py:54-74 | a cancelled run and one out of steps are stopped uncounted, every other is counted; a flag raised elsewhere in between is honoured |
| Nodes.Workflow.FetchEmployee | offboarding/orchestration/nodes.py:94-113 | meets `NodeEnds` at position 0: the record it returns is the directory's entry for this employee, and it touches neither ledger nor providers; undisturbed, an employee outside the directory is refused with PermanentToolError, one charge and one row |
| Nodes.Workflow.PlanDeprovisioning | offboarding/orchestration/nodes.py:121-150 | meets `NodeEnds` at position 1: the checklist and notes that leave it are those of the answer the model just gave, which matches the HR record, and an answer that does not match raises InvalidPlan |
| Nodes.Workflow.TracedPlan | offboarding/orchestration/nodes.py:132-143 | one trace row, completed with the plan's systems or failed with the exception, and no retry; the answer alone decides between the plan and InvalidPlan |
| Nodes.Workflow.AwaitHrApproval | offboarding/orchestration/nodes.py:158-224 | meets `NodeEnds` at position 2: pauses without a value, and with one goes on only if it approves |
| Nodes.Workflow.AwaitSignedDocument | offboarding/orchestration/nodes.py:306-356 | meets `NodeEnds` at position 5: pauses without a value and records the one it gets |
| Nodes.Workflow.EnterGate | offboarding/orchestration/nodes.py:77-86 | re-entry writes no second pause row: if the gate's latest row is a pause the trace is unchanged, otherwise one paused row with the gate's reason and detail is added |
| Nodes.Workflow.TakeValue | offboarding/orchestration/nodes.py:205-217 | what a gate makes of its resume value, with the one row it leaves, completed or failed with the rejection |
| Nodes.Workflow.RevokeAccess | offboarding/orchestration/nodes.py:232-259 | meets `NodeEnds` at position 3: when it returns, ledger row, provider and returned state hold the one receipt the state determines |
| Nodes.Workflow.SendExitPaperwork | offboarding/orchestration/nodes.py:267-298 | the same at position 4 |
| Nodes.Workflow.Finalize | offboarding/orchestration/nodes.py:366-392 | the same at position 6, for a summary made of the earlier receipts |
| Nodes.ExecutingWorks | offboarding/orchestration/nodes.py:241-249 | whatever happened inside one execution of a node's effect, the invariant holds, and a successful one delivered the settled receipt |
| Invariant.RunsAreIsolated | offboarding/persistence/side_effects.py:38-59 | work on one run keeps every other run's row, checkpoint, effects and invariant |
| Executor.ToolExecutor.Execute | offboarding/tools/executor.py:111-232 | retryable FAILED rows and then at most one closing row; on every end without a crash the calls charged are exactly the new rows, less the one row of a refusal, at most max(1, `max_attempts`) and never beyond the allowance; the result is the last ledger call's; off-list tools are refused uncharged; for a missing run nothing is done and each error is named |
| Executor.ToolExecutor.CheckBudget | offboarding/tools/executor.py:234-255 | passes exactly while the durable count is below the allowance, otherwise leaves one guardrail row |
| Ledger.SideEffectLedger.RunOnce | offboarding/tools/ledger.py:88-159 | row, provider, outcome and number of calls are those of `RunOnceSpec` for the adversary's choices and no other key moves; for a run that does not exist it recurses to the interpreter's limit and changes nothing |
| Ledger.SideEffectLedger.ResumeExisting | offboarding/tools/ledger.py:165-195 | the recovery table: which row states replay, adopt, refuse or proceed, and what each leaves behind |
| LedgerProtocol.RowsMeanWhatTheySay | offboarding/tools/ledger.py:25-40 | after any sequence of calls on a truthful provider: absent, reserved and failed rows mean not landed, completed means landed with that result, and at most one effect exists |
| LedgerProtocol.AtMostOnceIffSafe | offboarding/tools/ledger.py:88-159 | for each kind of tool: no sequence of calls, exceptions and deaths applies an effect twice if and only if the tool deduplicates, or can be queried without raising, or cannot be queried and refuses honestly |
| LedgerProtocol.SafeToolsAreNeverAppliedTwice | offboarding/tools/ledger.py:109-159 | the safe direction, over every sequence of calls |
| LedgerProtocol.UnsafeToolsCanBeAppliedTwice | offboarding/tools/ledger.py:185-192 | the other direction: a concrete sequence that applies the effect twice, for every unsafe tool |
| LedgerProtocol.OneReceiptForever | offboarding/tools/ledger.py:122-131 | retries and restarts with the same arguments never change which receipt the stores hold, and a successful last call delivered it |
| LedgerProtocol.CompletedAbsorbs | offboarding/tools/ledger.py:172-176 | one driver at a time: a completed row answers every later call with the same result and no call reaches the tool |
| LedgerProtocol.RaisingLookupIsReadAsNotLanded | offboarding/tools/ledger.py:198-209 | the disagreement with the documentation: a queryable tool whose `lookup` raises is called again |
| LedgerProtocol.UnqueryableToolsFailClosed | offboarding/tools/ledger.py:178-190 | a tool without `lookup` is called at most once more than the number of permanent refusals it raised |
| Interleaving.ManyDriversOneEffect | offboarding/tools/providers.py:27-57 | any number of interleaved, dying drivers on one key with equal arguments leave at most one provider effect; every outcome handed out carries it, and so does the ledger row once it holds a result |
| Interleaving.LosersOfTheRaceGetTheReceipt | offboarding/tools/ledger.py:122-131 | a driver that found no row and then finds the key reserved by another ends, after eight steps of its own at the latest, with the stored receipt, whatever the other drivers do, as long as nobody dies and no tool raises |
| Interleaving.ResultsNeverChange | offboarding/persistence/side_effects.py:68-90 | from any reachable store on, a stored result and an applied effect are there for good, whatever the drivers do |
| Interleaving.CompletedIsFinalIff | offboarding/persistence/side_effects.py:72-86 | when `completed` is absorbing in company: over all continuations, new drivers included, the row stays completed if and only if no driver has already decided to mark it in progress or failed |
| Interleaving.CompletedIsNotFinal | offboarding/persistence/side_effects.py:92-108 | such a decided driver over a completed row is reachable: a schedule of two drivers that reopens it |
| Interleaving.CallsAreRunsOfSteps | offboarding/tools/ledger.py:109-159 | refinement: every `run_once` call, under every choice of the adversary, is a run of the single steps with the same final store and outcome |
| TraceTable.TraceRepository.StartAttempt | offboarding/persistence/trace.py:40-81 | on a well-formed log it never raises a transition error: it appends one RUNNING row with the next attempt number and keeps the log well-formed, or, for a run that does not exist, breaks the foreign key and changes nothing |
| TraceTable.TraceRepository.CloseAttempt | offboarding/persistence/trace.py:83-125 | raises exactly when the row is missing or its status does not allow the move; otherwise changes that one row |
| TraceTable.TraceRepository.LatestForStep | offboarding/persistence/trace.py:194-204 | finds the last row of a step |
| TraceTable.AttemptsAreOneToN | offboarding/persistence/trace.py:48-81 | in a log, the attempts of each run and step are exactly 1 to n in order of identifiers |
| TraceTable.OpeningKeepsTheLog | offboarding/persistence/trace.py:48-81 | appending the next attempt keeps the numbering of every run and step |
| TraceTable.ClosingKeepsTheLog | offboarding/persistence/trace.py:94-125 | closing a row keeps the numbering of every run and step |
| RunTable.RunRepository.SetStatus | offboarding/persistence/runs.py:105-149 | raises exactly on moves outside the table and then changes nothing; otherwise a pause reason does not outlive its pause and a failure reason is only overwritten by another |
| RunTable.RunRepository.BumpCounters | offboarding/persistence/runs.py:171-186 | adds to the durable counters of that run alone |
| SideEffectTable.SideEffectRepository.TryReserve | offboarding/persistence/side_effects.py:38-59 | inserts a reserved row only where there is none and the run exists, and otherwise reports the key as taken without changing anything |
| SideEffectTable.SideEffectRepository.SetState | offboarding/persistence/side_effects.py:68-90 | a result once stored is kept when none is given |
| Tools.IamTool.Call | offboarding/tools/iam.py:62-104 | the shipped tool is an idempotent, queryable, honest one in the sense the protocol needs, including its failures and its death after applying |
| Tools.SendExitPaperworkTool.Call | offboarding/tools/documents.py:31-56 | likewise |
| Tools.ArchiveRecordTool.Call | offboarding/tools/documents.py:76-94 | likewise, and it never fails |
| Tools.ProviderStore.Record | offboarding/tools/providers.py:27-46 | a second record under a key changes nothing |
| Tools.ToolRegistry.RegisterAll | offboarding/tools/base.py:62-71 | succeeds exactly when no name is used twice, and then holds exactly the given tools under their names |
| Tools.ToolRegistry.Resolve | offboarding/tools/base.py:84-98 | resolves a name exactly when it is on the allowlist and registered |
| Services.BuildService | offboarding/orchestration/services.py:43-100 | the wiring meets everything the service relies on, from the database file alone |
| Plan.PlanAcceptedIffItMatches | offboarding/llm/provider.py:54-103 | a raw answer becomes a plan if and only if it fits the schema, is non-empty and names exactly the employee's systems |
| Plan.NoPlanFitsAnEmployeeWithoutSystems | offboarding/llm/provider.py:67-84 | for an employee without systems every answer is refused |
| Invariant.RenderedKeysDiffer | offboarding/tools/ledger.py:56-62 | for the workflow's three effects the rendered keys are equal if and only if run and effect are, for all run identifiers |
| Keys.KeysOfDistinctEffectsDiffer | offboarding/tools/ledger.py:56-62 | `build_key` is injective for all run identifiers as long as steps and operations, which the code spells out itself, hold no colon |
| Keys.ReceiptIdsDoNotDependOnTheRun | offboarding/tools/iam.py:92-97 | the receipt identifiers of two runs are equal |
| Domain.TerminalStatusEndsEveryPath | offboarding/domain/run.py:91-107 | on every path in the table a terminal status is the last entry and PENDING only the first |

## Left out

- Overlapping requests on one run: `set_status` rechecks only the status, so two approvals of different pauses, or a cancel and an approve, can interleave in ways the lifecycle results do not cover; several drivers are modelled on one ledger key only (module `Interleaving`).
- `Interleaving.ManyDriversOneEffect`: assumes equal arguments for all drivers and the package's own idempotent providers; the loser of a race with other arguments would return its own receipt.
- A `lookup` that raises, and a tool without one, inside the workflow: the nodes and everything above them are proved for tools that can be queried without raising (deduplicating or not), which is what the package ships; the ledger's own results cover every kind of tool.
- LangGraph, tenacity and SQLite: only the contracts above; every commit is one atomic step, and a checkpoint is durable when the node after it starts.
- `Services.BuildService`: wires tools whose failures are up to an adversary within what their profile allows, not the four tool classes; `IamTool.Call` and its siblings are proved to behave as such a tool may, and their counters of injected failures stay out of the durable store.
- Rows are keyed by the triple of run, step and operation instead of its rendering, which `Invariant.RenderedKeysDiffer` shows to be the same thing.
- `Nodes.Workflow.FetchEmployee`: beyond the refusal of an unknown employee, does not state which trace rows the step leaves, which `Execute` does; nothing downstream reads them.
- `ProviderStore.count`, `get_run`, `get_trace`, `get_side_effects`, `list_runs`: plain reads.
- Timestamps, uuids, failure messages, event texts, redaction, backoff durations, JSON encoding; `signed_at` is given by the caller instead of falling back on the clock.
- CLI, HTTP API, demo scripts, environment wiring, the Gemini client and its prompts, the fake model's text.
- A death while a transaction is open: SQLite rolls it back, so it is the death before that commit.
