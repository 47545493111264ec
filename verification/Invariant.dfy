/** What the two stores agree on about one run, after every commit.

    `RunInv` is the inductive invariant: every node, every graph invocation and every
    service operation keeps it on all three outcomes, so it holds wherever a process
    may die. */
module Invariant {
  import opened Domain
  import opened Durable
  import opened Executor
  import opened Keys
  import opened Ledger
  import opened LedgerProtocol
  import opened Plan
  import opened Tools
  import opened TraceTable

  // ------------------------------------------------------------ the workflow

  const END := 7

  function NodeAt(pc: nat): StepName
    requires pc < END
  {
    match pc
    case 0 => FetchEmployee
    case 1 => PlanDeprovisioning
    case 2 => AwaitHrApproval
    case 3 => RevokeAccess
    case 4 => SendExitPaperwork
    case 5 => AwaitSignedDocument
    case 6 => Finalize
  }

  /** The three side effects of a run. */
  datatype Effect = Revoke | Send | Archiving

  function NodeOf(e: Effect): nat {
    match e case Revoke => 3 case Send => 4 case Archiving => 6
  }

  function ToolOf(e: Effect): ToolKind {
    match e case Revoke => Iam case Send => SendPaperwork case Archiving => ArchiveRecord
  }

  function KeyOf(runId: string, e: Effect): Key {
    match e
    case Revoke => Key(runId, RevokeAccess, "revoke_all_systems")
    case Send => Key(runId, SendExitPaperwork, "send_packet")
    case Archiving => Key(runId, Finalize, "archive")
  }

  function IdOf(runId: string, e: Effect): EffectId {
    EffectId(ProviderOf(ToolOf(e)), KeyOf(runId, e))
  }

  /** The two stores' view of one of the run's effects. */
  function EffectState(w: World, runId: string, e: Effect): KeyState {
    KeyStateIn(w.sideEffects, w.providerEffects, IdOf(runId, e))
  }

  // --------------------------------------------- receipts the state determines

  function ChecklistOf(s: GraphState): seq<ChecklistItem> {
    if s.checklist.Some? then s.checklist.value else []
  }

  function EmailOf(s: GraphState): string {
    if s.employee.Some? then s.employee.value.email else ""
  }

  function ApproverOf(s: GraphState): string {
    if s.approval.Some? && s.approval.value.Decision? then s.approval.value.approver else ""
  }

  function PayloadOr(p: Option<Payload>): Payload {
    if p.Some? then p.value else NoResult
  }

  /** The arguments a node passes to its tool: a function of the checkpointed state. */
  function ArgsOf(e: Effect, s: GraphState): Kwargs {
    match e
    case Revoke => RevokeArgs(s.employeeId, Systems(ChecklistOf(s)))
    case Send => SendArgs(s.employeeId, EmailOf(s), ChecklistOf(s))
    case Archiving =>
      ArchiveArgs(s.employeeId, Summary(s.employeeId, Systems(ChecklistOf(s)), RevocationIdOf(PayloadOr(s.revocation)),
                                        DocumentIdOf(PayloadOr(s.paperwork)), ApproverOf(s)))
  }

  function ReceiptOf(e: Effect, runId: string, s: GraphState): Payload {
    Receipt(ArgsOf(e, s), KeyOf(runId, e))
  }

  function StoredReceipt(e: Effect, s: GraphState): Option<Payload> {
    match e case Revoke => s.revocation case Send => s.paperwork case Archiving => s.archive
  }

  // ------------------------------------------------------------ the invariant

  /** A node's fields are there exactly when the checkpoint is past it, the plan fits
      the HR record, and the gate let only an approval through. */
  predicate StateFits(pc: nat, s: GraphState) {
    && (s.employee.Some? <==> pc >= 1)
    && (s.checklist.Some? <==> pc >= 2)
    && (s.approval.Some? <==> pc >= 3)
    && (s.revocation.Some? <==> pc >= 4)
    && (s.paperwork.Some? <==> pc >= 5)
    && (s.signedDocument.Some? <==> pc >= 6)
    && (s.archive.Some? <==> pc >= 7)
    && (s.checklist.Some? ==> s.employee.Some? && Matches(s.checklist.value, s.employee.value))
    && (s.approval.Some? ==> Approves(s.approval.value))
  }

  /** Before its node an effect does not exist anywhere; at its node the ledger row means
      what it says; past its node row, provider and checkpoint hold the one receipt. */
  predicate EffectFits(w: World, runId: string, pc: nat, s: GraphState, e: Effect) {
    var k := EffectState(w, runId, e);
    var r := ReceiptOf(e, runId, s);
    if pc < NodeOf(e) then k == FRESH
    else if pc == NodeOf(e) then RowMeans(k, r)
    else IsSettledWith(k, r) && StoredReceipt(e, s) == Some(r)
  }

  predicate EffectsFit(w: World, runId: string, pc: nat, s: GraphState) {
    && EffectFits(w, runId, pc, s, Revoke)
    && EffectFits(w, runId, pc, s, Send)
    && EffectFits(w, runId, pc, s, Archiving)
  }

  predicate NoEffects(w: World, runId: string) {
    EffectState(w, runId, Revoke) == FRESH && EffectState(w, runId, Send) == FRESH && EffectState(w, runId, Archiving) == FRESH
  }

  /** Guards passed by a crash-free run that stands before node `pc`. A gate is entered
      twice: once to pause, once to go on. */
  function StepsBefore(pc: nat): nat {
    match pc
    case 0 => 0 case 1 => 1 case 2 => 2 case 3 => 4 case 4 => 5 case 5 => 6 case 6 => 8
    case _ => 9
  }

  predicate IsGate(pc: nat) {
    pc == 2 || pc == 5
  }

  function GateReason(pc: nat): PauseReason {
    if pc == 2 then HrApproval else SignedDocument
  }

  predicate WithinBudgets(w: World, r: Run) {
    && r.stepCount <= Max(0, r.maxSteps)
    && CallsFor(w.calls, r.runId) <= r.toolCallCount <= Max(0, r.maxToolCalls)
  }

  predicate ReasonsFit(r: Run) {
    && (r.pauseReason.Some? <==> r.status.Paused?)
    && (r.failureReason.Some? <==> r.status.Failed?)
  }

  predicate OutOfBudget(r: Run) {
    r.stepCount >= r.maxSteps || r.toolCallCount >= r.maxToolCalls
  }

  /** What a failure reason says about the run. With the package's tools two of the six
      cannot occur. */
  predicate FailureFits(r: Run, pc: nat) {
    match r.failureReason
    case None => true
    case Some(ApprovalRejection) => pc == 2
    case Some(PlanInvalid) => pc == 1
    case Some(BudgetExhausted) => OutOfBudget(r)
    case Some(ToolFailed) => !IsGate(pc)
    case Some(ToolRefused) | Some(NeedsReconciliation) => false
  }

  /** Every status ever written for the run, in order: a path in the table from PENDING to
      where it is now. */
  predicate LogFits(log: seq<RunStatus>, status: RunStatus) {
    log != [] && log[0].Pending? && IsRunPath(log) && log[|log| - 1] == status
  }

  /** A flagged run is at most one node past where its checkpoint stood when the flag was
      raised, and no effect of a node behind that one exists. */
  predicate FlagFits(w: World, r: Run) {
    r.cancelRequested ==>
      && r.runId in w.flaggedAt
      && var at := w.flaggedAt[r.runId];
         && PositionIn(w.checkpoints, r.runId) <= at + 1
         && (at < NodeOf(Revoke) ==> EffectState(w, r.runId, Revoke) == FRESH)
         && (at < NodeOf(Send) ==> EffectState(w, r.runId, Send) == FRESH)
         && (at < NodeOf(Archiving) ==> EffectState(w, r.runId, Archiving) == FRESH)
  }

  /** What the state holds of the plan is the model's last answer, and no earlier than it
      was taken. */
  predicate PlanFits(answers: seq<RawPlan>, s: GraphState) {
    if s.checklist.Some? then
      answers != [] && answers[|answers| - 1] == Shaped(DeprovisioningPlan(s.checklist.value, s.planNotes))
    else
      s.planNotes == ""
  }

  /** What a gate writes into its pause. */
  function PauseDetailAt(pc: nat, s: GraphState): Detail {
    if pc == 2 then PauseDetail(|ChecklistOf(s)|) else DocumentDetail(DocumentIdOf(PayloadOr(s.paperwork)))
  }

  ghost predicate PauseShows(trace: seq<StepAttempt>, runId: string, pc: nat, s: GraphState)
    requires pc < END
  {
    LatestIs(trace, runId, NodeAt(pc), StepStatus.Paused, Some(GateReason(pc)), PauseDetailAt(pc, s))
  }

  ghost predicate PlanShows(trace: seq<StepAttempt>, runId: string, items: seq<ChecklistItem>) {
    LatestIs(trace, runId, PlanDeprovisioning, StepStatus.Completed, None, PlanDetail(Systems(items)))
  }

  /** The trace knows nothing of gates ahead, a pause at the gate at hand says why and of
      what, and the planning step's latest row shows the plan that was taken. */
  ghost predicate TraceFits(trace: seq<StepAttempt>, runId: string, pc: nat, s: GraphState) {
    && (pc < 2 ==> NoRows(trace, runId, AwaitHrApproval))
    && (pc < 5 ==> NoRows(trace, runId, AwaitSignedDocument))
    && (IsGate(pc) && LatestIsPaused(trace, runId, NodeAt(pc)) ==> PauseShows(trace, runId, pc, s))
    && (s.checklist.Some? ==> PlanShows(trace, runId, s.checklist.value))
  }

  predicate NoGateRows(trace: seq<StepAttempt>, runId: string) {
    NoRows(trace, runId, AwaitHrApproval) && NoRows(trace, runId, AwaitSignedDocument)
  }

  /** The run's ledger rows say whose they are. */
  predicate LabelsFit(rows: map<Key, SideEffectRecord>, runId: string) {
    && LabelFits(rows, runId, Revoke) && LabelFits(rows, runId, Send) && LabelFits(rows, runId, Archiving)
  }

  predicate LabelFits(rows: map<Key, SideEffectRecord>, runId: string, e: Effect) {
    KeyOf(runId, e) in rows ==>
      HasLabel(rows[KeyOf(runId, e)], KeyOf(runId, e), runId, NodeAt(NodeOf(e)), SpecOf(ToolOf(e)).name)
  }

  /** A run whose first checkpoint was never written. */
  predicate NotStarted(w: World, r: Run) {
    && (r.status.Pending? || r.status.Running? || r.status.Cancelled?)
    && NoEffects(w, r.runId) && NoGateRows(w.stepTrace, r.runId)
    && r.stepCount == 0
  }

  ghost predicate Started(w: World, r: Run, cp: Checkpoint) {
    && cp.pc <= END
    && cp.state.runId == r.runId && cp.state.employeeId == r.employeeId
    && StateFits(cp.pc, cp.state) && PlanFits(AnswersFor(w.answers, r.runId), cp.state)
    && EffectsFit(w, r.runId, cp.pc, cp.state) && TraceFits(w.stepTrace, r.runId, cp.pc, cp.state)
    && StepsBefore(cp.pc) + (if r.status.Paused? || cp.resume.Some? then 1 else 0) <= r.stepCount
    && (cp.resume.Some? ==> IsGate(cp.pc) && !r.status.Paused?)
    && !r.status.Pending?
    && (r.status.Paused? ==>
          && IsGate(cp.pc) && r.pauseReason == Some(GateReason(cp.pc))
          && LatestIsPaused(w.stepTrace, r.runId, NodeAt(cp.pc)))
    && (r.status.Completed? ==> cp.pc == END)
    && (cp.pc == END ==> r.status.Running? || r.status.Completed?)
    && FailureFits(r, cp.pc)
  }

  ghost predicate RunInv(w: World, runId: string) {
    && IsLog(w.stepTrace) && LabelsFit(w.sideEffects, runId)
    && (runId !in w.runs ==>
          && ThreadId(runId) !in w.checkpoints && NoEffects(w, runId) && CallsFor(w.calls, runId) == 0
          && LogFor(w.statusLog, runId) == [] && NoGateRows(w.stepTrace, runId))
    && (runId in w.runs ==>
          var r := w.runs[runId];
          && r.runId == runId && r.threadId == ThreadId(runId)
          && WithinBudgets(w, r) && ReasonsFit(r)
          && LogFits(LogFor(w.statusLog, runId), r.status) && FlagFits(w, r)
          && if ThreadId(runId) in w.checkpoints then Started(w, r, w.checkpoints[ThreadId(runId)]) else NotStarted(w, r))
  }

  predicate InFlight(w: World, runId: string) {
    runId in w.runs && ThreadId(runId) in w.checkpoints && w.runs[runId].status.Running?
  }

  function Pc(w: World, runId: string): nat
    requires ThreadId(runId) in w.checkpoints
  {
    w.checkpoints[ThreadId(runId)].pc
  }

  function StateOf(w: World, runId: string): GraphState
    requires ThreadId(runId) in w.checkpoints
  {
    w.checkpoints[ThreadId(runId)].state
  }

  // ------------------------------------------------------- what only ever grows

  predicate Kept<T(==)>(before: Option<T>, after: Option<T>) {
    before.Some? ==> after == before
  }

  predicate StateGrows(s: GraphState, s': GraphState) {
    && s'.runId == s.runId && s'.employeeId == s.employeeId
    && Kept(s.employee, s'.employee) && Kept(s.checklist, s'.checklist) && (s.checklist.Some? ==> s'.planNotes == s.planNotes)
    && Kept(s.approval, s'.approval) && Kept(s.revocation, s'.revocation) && Kept(s.paperwork, s'.paperwork)
    && Kept(s.signedDocument, s'.signedDocument) && Kept(s.archive, s'.archive)
  }

  predicate EffectGrows(k: KeyState, k': KeyState) {
    && (k.applied != [] ==> k'.applied == k.applied)
    && (k.row.Some? && k.row.value.state.Completed? ==> k'.row == k.row)
  }

  predicate IsOwnKey(runId: string, k: Key) {
    k == KeyOf(runId, Revoke) || k == KeyOf(runId, Send) || k == KeyOf(runId, Archiving)
  }

  predicate IsOwn(runId: string, id: EffectId) {
    id == IdOf(runId, Revoke) || id == IdOf(runId, Send) || id == IdOf(runId, Archiving)
  }

  function RecordIn(rows: map<Key, SideEffectRecord>, k: Key): Option<SideEffectRecord> {
    if k in rows then Some(rows[k]) else None
  }

  /** Nothing of any other run was touched, and no key but the run's three. */
  ghost predicate OthersUntouched(w: World, w': World, runId: string) {
    && (forall r :: r != runId ==> (r in w.runs <==> r in w'.runs) && (r in w.runs ==> w'.runs[r] == w.runs[r]))
    && (forall k: Key :: !IsOwnKey(runId, k) ==> RecordIn(w.sideEffects, k) == RecordIn(w'.sideEffects, k))
    && (forall id: EffectId :: !IsOwn(runId, id) ==> Applied(w.providerEffects, id) == Applied(w'.providerEffects, id))
    && (forall t: ThreadId :: t.runId != runId ==>
          (t in w.checkpoints <==> t in w'.checkpoints) && (t in w.checkpoints ==> w'.checkpoints[t] == w.checkpoints[t]))
    && (forall r :: r != runId ==> CallsFor(w'.calls, r) == CallsFor(w.calls, r))
    && (forall r :: r != runId ==> LogFor(w'.statusLog, r) == LogFor(w.statusLog, r))
    && (forall r :: r != runId ==> AnswersFor(w'.answers, r) == AnswersFor(w.answers, r))
    && (forall r :: r != runId ==>
          (r in w.flaggedAt <==> r in w'.flaggedAt) && (r in w.flaggedAt ==> w'.flaggedAt[r] == w.flaggedAt[r]))
  }

  predicate RunGrows(r: Run, r': Run) {
    && r'.runId == r.runId && r'.threadId == r.threadId && r'.employeeId == r.employeeId
    && r'.maxSteps == r.maxSteps && r'.maxToolCalls == r.maxToolCalls
    && r.stepCount <= r'.stepCount && r.toolCallCount <= r'.toolCallCount
    && (r.cancelRequested ==> r'.cancelRequested)
  }

  /** How a run's part of the store may change over any stretch of time. */
  ghost predicate Grows(w: World, w': World, runId: string) {
    && w.mishaps <= w'.mishaps
    && LogFor(w.statusLog, runId) <= LogFor(w'.statusLog, runId)
    && AnswersFor(w.answers, runId) <= AnswersFor(w'.answers, runId)
    && (runId in w.flaggedAt && runId in w.runs && w.runs[runId].cancelRequested ==>
          runId in w'.flaggedAt && w'.flaggedAt[runId] == w.flaggedAt[runId])
    && (runId in w.runs ==> runId in w'.runs && RunGrows(w.runs[runId], w'.runs[runId]))
    && (ThreadId(runId) in w.checkpoints ==>
          && ThreadId(runId) in w'.checkpoints
          && Pc(w, runId) <= Pc(w', runId)
          && StateGrows(StateOf(w, runId), StateOf(w', runId)))
    && EffectGrows(EffectState(w, runId, Revoke), EffectState(w', runId, Revoke))
    && EffectGrows(EffectState(w, runId, Send), EffectState(w', runId, Send))
    && EffectGrows(EffectState(w, runId, Archiving), EffectState(w', runId, Archiving))
  }

  /** How the store may change over any stretch of one driver's work on one run. */
  ghost predicate Evolves(w: World, w': World, runId: string) {
    && OthersUntouched(w, w', runId)
    && Appends(w.stepTrace, w'.stepTrace, runId)
    && Grows(w, w', runId)
  }

  lemma SameTablesSameEffects(w: World, v: World, runId: string)
    requires v.sideEffects == w.sideEffects && v.providerEffects == w.providerEffects
    ensures forall e: Effect :: EffectState(v, runId, e) == EffectState(w, runId, e)
  {
  }

  lemma SameTablesSameFit(w: World, v: World, runId: string, pc: nat, s: GraphState)
    requires v.sideEffects == w.sideEffects && v.providerEffects == w.providerEffects
    ensures EffectsFit(v, runId, pc, s) == EffectsFit(w, runId, pc, s)
  {
    hide EffectState, ReceiptOf, IsSettledWith, RowMeans;
    SameTablesSameEffects(w, v, runId);
  }

  lemma GrowsTransitively(w: World, v: World, u: World, runId: string)
    requires Grows(w, v, runId) && Grows(v, u, runId)
    ensures Grows(w, u, runId)
  {
    hide EffectState;
  }

  lemma OthersStayUntouched(w: World, v: World, u: World, runId: string)
    requires OthersUntouched(w, v, runId) && OthersUntouched(v, u, runId)
    ensures OthersUntouched(w, u, runId)
  {
    hide IsOwn, IsOwnKey, Applied, CallsFor, LogFor;
  }

  lemma AppendsTransitively(t: seq<StepAttempt>, t1: seq<StepAttempt>, t2: seq<StepAttempt>, runId: string)
    requires Appends(t, t1, runId) && Appends(t1, t2, runId)
    ensures Appends(t, t2, runId)
  {
    assert forall i {:trigger t2[i]} :: 0 <= i < |t| ==> t2[i] == t1[i];
  }

  lemma EvolvesTransitively(w: World, v: World, u: World, runId: string)
    requires Evolves(w, v, runId) && Evolves(v, u, runId)
    ensures Evolves(w, u, runId)
  {
    hide Grows, OthersUntouched, Appends;
    GrowsTransitively(w, v, u, runId);
    OthersStayUntouched(w, v, u, runId);
    AppendsTransitively(w.stepTrace, v.stepTrace, u.stepTrace, runId);
  }

  lemma EvolvesReflexively(w: World, runId: string)
    ensures Evolves(w, w, runId)
  {
  }

  lemma OthersKeepTheirEffects(w: World, w': World, runId: string, other: string)
    requires other != runId && OthersUntouched(w, w', runId)
    ensures forall e :: EffectState(w', other, e) == EffectState(w, other, e)
    ensures LabelsFit(w.sideEffects, other) ==> LabelsFit(w'.sideEffects, other)
  {
    forall e
      ensures EffectState(w', other, e) == EffectState(w, other, e)
      ensures LabelFits(w.sideEffects, other, e) ==> LabelFits(w'.sideEffects, other, e)
    {
      assert KeyOf(other, e).runId == other && IdOf(other, e).key.runId == other;
      assert RecordIn(w.sideEffects, KeyOf(other, e)) == RecordIn(w'.sideEffects, KeyOf(other, e));
    }
  }

  lemma OthersKeepTheirTrace(t: seq<StepAttempt>, t': seq<StepAttempt>, runId: string, other: string)
    requires other != runId && Appends(t, t', runId)
    ensures forall step :: LatestIsPaused(t, other, step) ==> LatestIsPaused(t', other, step)
    ensures forall pc, s :: TraceFits(t, other, pc, s) ==> TraceFits(t', other, pc, s)
    ensures NoGateRows(t, other) ==> NoGateRows(t', other)
  {
    assert t'[..|t|] == t;
    forall step
      ensures LatestIsPaused(t, other, step) <==> LatestIsPaused(t', other, step)
      ensures NoRows(t, other, step) <==> NoRows(t', other, step)
      ensures forall status, pause, detail ::
        LatestIs(t, other, step, status, pause, detail) <==> LatestIs(t', other, step, status, pause, detail)
    {
      LatestRowsStay(t, t', other, step);
    }
  }

  /** While a node adds rows of its own step, the trace keeps fitting. */
  lemma NodesKeepTheTrace(t: seq<StepAttempt>, t': seq<StepAttempt>, runId: string, pc: nat, s: GraphState)
    requires TraceFits(t, runId, pc, s) && StateFits(pc, s) && pc < END && AppendsFor(t, t', runId, NodeAt(pc))
    requires IsGate(pc) && LatestIsPaused(t', runId, NodeAt(pc)) ==> PauseShows(t', runId, pc, s)
    ensures TraceFits(t', runId, pc, s)
  {
    forall step: StepName | step != NodeAt(pc)
      ensures NoRows(t, runId, step) <==> NoRows(t', runId, step)
      ensures forall status, pause, detail ::
        LatestIs(t, runId, step, status, pause, detail) <==> LatestIs(t', runId, step, status, pause, detail)
    {
      LatestRowsStay(t, t', runId, step);
    }
  }

  lemma ReturningFitsTheTrace(t: seq<StepAttempt>, runId: string, pc: nat, s: GraphState, s': GraphState)
    requires TraceFits(t, runId, pc, s) && StateFits(pc, s) && pc < END && StateFits(pc + 1, s') && StateGrows(s, s')
    requires pc == 1 ==> PlanShows(t, runId, s'.checklist.value)
    ensures TraceFits(t, runId, pc + 1, s')
  {
    hide LatestIs;
  }

  /** Runs do not disturb one another: whatever a driver does to one run, every other
      run keeps its row, its checkpoint, its effects and its invariant. */
  lemma RunsAreIsolated(w: World, w': World, runId: string, other: string)
    requires other != runId && RunInv(w, other) && IsLog(w'.stepTrace)
    requires OthersUntouched(w, w', runId) && Appends(w.stepTrace, w'.stepTrace, runId)
    ensures RunInv(w', other)
    ensures forall e :: EffectState(w', other, e) == EffectState(w, other, e)
    ensures other in w.runs <==> other in w'.runs
    ensures other in w.runs ==> w'.runs[other] == w.runs[other]
  {
    hide EffectState, LatestIsPaused, Appends, IsLog, IsRunPath, IsSettledWith, RowMeans, ReceiptOf, Matches, IsOwn, IsOwnKey, TraceFits,
         LabelsFit, PlanFits, NoGateRows;
    assert ThreadId(other).runId != runId;
    assert PositionIn(w'.checkpoints, other) == PositionIn(w.checkpoints, other);
    OthersKeepTheirEffects(w, w', runId, other);
    OthersKeepTheirTrace(w.stepTrace, w'.stepTrace, runId, other);
  }

  lemma StepAndOperationHaveNoColon(e: Effect)
    ensures forall runId :: ':' !in StepText(KeyOf(runId, e).stepName) && ':' !in KeyOf(runId, e).operation
  {
  }

  /** Rendered as text the keys are still the keys: two effects of the workflow never share
      one, whatever the run identifiers are. */
  lemma RenderedKeysDiffer(r1: string, e1: Effect, r2: string, e2: Effect)
    ensures Render(KeyOf(r1, e1)) == Render(KeyOf(r2, e2)) <==> r1 == r2 && e1 == e2
  {
    if Render(KeyOf(r1, e1)) == Render(KeyOf(r2, e2)) {
      StepAndOperationHaveNoColon(e1);
      StepAndOperationHaveNoColon(e2);
      KeysOfDistinctEffectsDiffer(r1, StepText(KeyOf(r1, e1).stepName), KeyOf(r1, e1).operation,
                                  r2, StepText(KeyOf(r2, e2).stepName), KeyOf(r2, e2).operation);
    }
  }
}
