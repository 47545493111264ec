/** The run and step state machines, the error taxonomy and the durable records.

    One `Outcome` stands for the three ways a Python call can end: it returns,
    it raises, or the process running it dies. `Crashed` is the third way: the
    caller never gets control back, so it is propagated and never handled. */
module Domain {

  datatype Option<+T> = None | Some(value: T)

  // ---------------------------------------------------------------- lifecycle

  datatype RunStatus = Pending | Running | Paused | Completed | Failed | Cancelled

  datatype StepStatus = Pending | Running | Paused | Completed | Failed | Skipped

  datatype StepName =
    | FetchEmployee
    | PlanDeprovisioning
    | AwaitHrApproval
    | RevokeAccess
    | SendExitPaperwork
    | AwaitSignedDocument
    | Finalize

  datatype PauseReason = HrApproval | SignedDocument

  datatype FailureReason =
    | ToolFailed
    | ApprovalRejection
    | BudgetExhausted
    | ToolRefused
    | PlanInvalid
    | NeedsReconciliation

  // ------------------------------------------------------------------- errors

  datatype Error =
    | TransientToolError
    | PermanentToolError
    | ToolNotAllowed
    | BudgetExceeded
    | InvalidPlan
    | SideEffectReconciliationRequired
    | RunCancelled
    | ApprovalRejected
    | InvalidStateTransition
    | RunNotFound
    | InvalidRunOperation
    // LangGraph's own: `interrupt()` without a value, `invoke(None)` on an empty thread.
    | GraphInterrupt(reason: PauseReason)
    | EmptyInput
    // Exceptions from outside the package's taxonomy.
    | ValueError
    | KeyError
    | IntegrityError
    | ForeignError

  /** `isinstance(exc, PermanentToolError)`: the class and its three subclasses. */
  predicate IsPermanent(e: Error) {
    e.PermanentToolError? || e.ToolNotAllowed? || e.BudgetExceeded? || e.InvalidPlan?
  }

  /** `isinstance(exc, ToolError)`. */
  predicate IsToolError(e: Error) {
    e.TransientToolError? || IsPermanent(e)
  }

  datatype Outcome<+T> = Ok(value: T) | Raised(error: Error) | Crashed {
    predicate IsFailure() {
      !Ok?
    }

    function PropagateFailure<U>(): Outcome<U>
      requires !Ok?
    {
      if Crashed? then Crashed else Raised(error)
    }

    function Extract(): T
      requires Ok?
    {
      value
    }
  }

  // -------------------------------------------------------- transition tables

  function AllowedRunTransitions(current: RunStatus): set<RunStatus> {
    match current
    case Pending => {RunStatus.Running, RunStatus.Cancelled}
    case Running => {RunStatus.Paused, RunStatus.Completed, RunStatus.Failed, RunStatus.Cancelled}
    case Paused => {RunStatus.Running, RunStatus.Failed, RunStatus.Cancelled}
    case Completed => {}
    case Failed => {}
    case Cancelled => {}
  }

  function AllowedStepTransitions(current: StepStatus): set<StepStatus> {
    match current
    case Pending => {StepStatus.Running, StepStatus.Skipped}
    case Running => {StepStatus.Completed, StepStatus.Failed, StepStatus.Paused, StepStatus.Running}
    case Paused => {StepStatus.Running, StepStatus.Completed, StepStatus.Failed}
    case Failed => {StepStatus.Running}
    case Completed => {StepStatus.Running}
    case Skipped => {}
  }

  predicate IsTerminal(status: RunStatus) {
    status.Completed? || status.Failed? || status.Cancelled?
  }

  function TransitionRun(current: RunStatus, target: RunStatus): Outcome<RunStatus> {
    if target in AllowedRunTransitions(current) then Ok(target) else Raised(InvalidStateTransition)
  }

  function TransitionStep(current: StepStatus, target: StepStatus): Outcome<StepStatus> {
    if target in AllowedStepTransitions(current) then Ok(target) else Raised(InvalidStateTransition)
  }

  /** A status history the run table accepts: every move is one of its entries. */
  predicate IsRunPath(history: seq<RunStatus>) {
    forall i :: 0 < i < |history| ==> history[i] in AllowedRunTransitions(history[i - 1])
  }

  /** No accepted history leaves a terminal status, and none returns to Pending:
      what is terminal somewhere is the last entry. */
  lemma TerminalStatusEndsEveryPath(history: seq<RunStatus>, i: nat)
    requires IsRunPath(history) && i < |history|
    ensures IsTerminal(history[i]) ==> i == |history| - 1
    ensures history[i].Pending? ==> i == 0
  {
    if i + 1 < |history| {
      assert history[i + 1] in AllowedRunTransitions(history[i]);
    }
    if 0 < i {
      assert history[i] in AllowedRunTransitions(history[i - 1]);
    }
  }

  // ------------------------------------------------------------ business data

  datatype Employee = Employee(
    employeeId: string,
    name: string,
    email: string,
    department: string,
    lastDay: string,
    systems: seq<string>,
    hasCompanyHardware: bool)

  datatype RiskLevel = Low | Medium | High

  datatype ChecklistItem = ChecklistItem(system: string, action: string, riskLevel: RiskLevel)

  function Systems(items: seq<ChecklistItem>): (systems: seq<string>)
    ensures |systems| == |items|
  {
    seq(|items|, i requires 0 <= i < |items| => items[i].system)
  }

  datatype DeprovisioningPlan = DeprovisioningPlan(items: seq<ChecklistItem>, notes: string)

  /** Raw model output: something the schema rejects, or a plan-shaped value. */
  datatype RawPlan = Malformed | Shaped(plan: DeprovisioningPlan)

  datatype Summary = Summary(
    employeeId: string,
    systemsRevoked: seq<string>,
    revocationId: string,
    documentId: string,
    approvedBy: string)

  /** Everything a tool can return or a provider can store. `NoResult` is the `{}`
      the ledger hands out for a completed row that holds no result. */
  datatype Payload =
    | EmployeeRecord(employee: Employee)
    | Revocation(employeeId: string, revokedSystems: seq<string>, revocationId: string)
    | Paperwork(documentId: string, employeeId: string, sentTo: string, itemCount: nat)
    | Archive(archiveId: string, employeeId: string, summary: Summary)
    | NoResult

  function RevocationIdOf(p: Payload): string {
    if p.Revocation? then p.revocationId else ""
  }

  function DocumentIdOf(p: Payload): string {
    if p.Paperwork? then p.documentId else ""
  }

  /** The value fed to a pending `interrupt()`. */
  datatype ResumeValue =
    | Decision(approved: bool, approver: string, note: Option<string>)
    | Signature(signedDocumentId: string, signedAt: string)

  predicate Approves(v: ResumeValue) {
    v.Decision? && v.approved
  }

  // ---------------------------------------------------------- durable records

  /** An idempotency key before it is rendered as `{run_id}:{step_name}:{operation}`;
      `Keys.Render` does the rendering and says when it is injective. */
  datatype Key = Key(runId: string, stepName: StepName, operation: string)

  datatype ThreadId = ThreadId(runId: string)

  datatype Run = Run(
    runId: string,
    threadId: ThreadId,
    employeeId: string,
    status: RunStatus,
    pauseReason: Option<PauseReason>,
    failureReason: Option<FailureReason>,
    cancelRequested: bool,
    stepCount: nat,
    toolCallCount: nat,
    maxSteps: int,
    maxToolCalls: int)

  datatype Detail =
    | NoDetail
    | RetryDetail(retryable: bool, attempt: nat)
    | Guardrail
    | CallDetail(callAttempt: nat, replayed: bool, reconciled: bool, result: Payload)
    | PauseDetail(itemCount: nat)
    | DocumentDetail(documentId: string)
    | PlanDetail(systems: seq<string>)
    | ResumeDetail(resumedWith: ResumeValue)

  datatype StepAttempt = StepAttempt(
    id: nat,
    runId: string,
    stepName: StepName,
    attempt: nat,
    status: StepStatus,
    toolInvoked: Option<string>,
    pauseReason: Option<PauseReason>,
    errorType: Option<Error>,
    detail: Detail)

  datatype LedgerState = Reserved | InProgress | Completed | Failed

  datatype SideEffectRecord = SideEffectRecord(
    key: Key,
    runId: string,
    stepName: StepName,
    toolName: string,
    state: LedgerState,
    result: Option<Payload>)

  datatype Provider = IamProvider | DocumentsProvider | ArchiveProvider | NoProvider

  datatype EffectId = EffectId(provider: Provider, key: Key)

  /** The graph's shared state. `None` is a field no node has written yet. */
  datatype GraphState = GraphState(
    runId: string,
    employeeId: string,
    employee: Option<Employee>,
    checklist: Option<seq<ChecklistItem>>,
    planNotes: string,
    approval: Option<ResumeValue>,
    revocation: Option<Payload>,
    paperwork: Option<Payload>,
    signedDocument: Option<ResumeValue>,
    archive: Option<Payload>)

  /** LangGraph's side of the file: the next node of the linear workflow (`pc` is its
      index, 7 is END), the state the returned nodes left, and a resume value that
      was saved but whose node has not returned. */
  datatype Checkpoint = Checkpoint(pc: nat, state: GraphState, resume: Option<ResumeValue>)
}
