/** The seven steps of the workflow. A node runs from its top on every entry; its
    checkpoint advances only when it returns. */
module Nodes {
  import opened Domain
  import opened Durable
  import opened Executor
  import opened Invariant
  import opened Ledger
  import opened LedgerProtocol
  import opened Plan
  import opened RunTable
  import opened Tools
  import opened TraceTable
  import opened Tracing

  /** The tools each step may call. */
  function Allowlist(step: StepName): set<string> {
    match step
    case FetchEmployee => {HR_DIRECTORY}
    case PlanDeprovisioning => {}
    case AwaitHrApproval => {}
    case RevokeAccess => {IAM_REVOKE}
    case SendExitPaperwork => {SEND_PAPERWORK}
    case AwaitSignedDocument => {}
    case Finalize => {ARCHIVE_RECORD}
  }

  /** The registry holds the four tools, and the providers behind the side-effecting
      ones can be asked and answer truthfully. */
  ghost predicate ToolsWired(registry: ToolRegistry)
    reads registry
  {
    forall kind: ToolKind ::
      && SpecOf(kind).name in registry.tools
      && registry.tools[SpecOf(kind).name].kind == kind
      && Truthful(registry.tools[SpecOf(kind).name].profile)
  }

  // ------------------------------------------------- what a node may do to a run

  /** A node is about to run at checkpoint `pc` of a run in flight. */
  ghost predicate AtNode(w: World, runId: string, pc: nat, s: GraphState) {
    RunInv(w, runId) && InFlight(w, runId) && Pc(w, runId) == pc && pc < END && StateOf(w, runId) == s
  }

  /** The stretch of a driver's work that a node is: the invariant holds wherever it
      stops, its checkpoint stays, and it passes at most one guard. */
  ghost predicate Works(w: World, w': World, runId: string) {
    && RunInv(w', runId) && Evolves(w, w', runId) && InFlight(w', runId)
    && w'.checkpoints == w.checkpoints && w'.statusLog == w.statusLog
    && runId in w.runs && w'.runs[runId].stepCount <= w.runs[runId].stepCount + 1
  }

  /** A node that returned left a state in which its checkpoint may advance. */
  ghost predicate Returns(w: World, w': World, runId: string, pc: nat, s: GraphState, s': GraphState) {
    && StateFits(pc + 1, s') && EffectsFit(w', runId, pc + 1, s') && StateGrows(s, s')
    && PlanFits(AnswersFor(w'.answers, runId), s') && TraceFits(w'.stepTrace, runId, pc + 1, s')
    && runId in w.runs && runId in w'.runs && w'.runs[runId].stepCount == w.runs[runId].stepCount + 1
    && (w'.runs[runId].cancelRequested ==> runId in w'.flaggedAt && w'.flaggedAt[runId] == pc)
  }

  /** The errors that leave a node, and what each implies. */
  ghost predicate RaisesFor(w: World, w': World, runId: string, pc: nat, resume: Option<ResumeValue>, error: Error)
    requires runId in w.runs && runId in w'.runs && pc < END
  {
    && (error.RunCancelled? ==> w'.runs[runId].cancelRequested)
    && (!error.RunCancelled? && !error.BudgetExceeded? ==> w'.runs[runId].stepCount == w.runs[runId].stepCount + 1)
    && match error
       case RunCancelled => true
       case BudgetExceeded => OutOfBudget(w'.runs[runId])
       case GraphInterrupt(reason) =>
         && IsGate(pc) && resume.None? && reason == GateReason(pc)
         && LatestIsPaused(w'.stepTrace, runId, NodeAt(pc))
       case ApprovalRejected => pc == 2 && resume.Some? && !Approves(resume.value)
       case InvalidPlan => pc == 1
       case TransientToolError | PermanentToolError | ForeignError => !IsGate(pc)
       case _ => false
  }

  predicate CallsTool(pc: nat) {
    pc == 0 || pc == 3 || pc == 4 || pc == 6
  }

  predicate EndsRegularly(pc: nat, resume: Option<ResumeValue>, out: Outcome<GraphState>) {
    if IsGate(pc) && resume.None? then out == Raised(GraphInterrupt(GateReason(pc)))
    else if pc == 2 && !Approves(resume.value) then out == Raised(ApprovalRejected)
    else out.Ok?
  }

  /** The one row of a fetch for somebody the directory does not know. */
  predicate FetchRefused(t: seq<StepAttempt>, t': seq<StepAttempt>, runId: string) {
    && |t'| == |t| + 1 && t'[..|t|] == t
    && IsFor(t'[|t|], runId, StepName.FetchEmployee)
    && t'[|t|].status.Failed? && t'[|t|].errorType == Some(PermanentToolError) && t'[|t|].detail == RetryDetail(false, 1)
  }

  /** How a node ends when nothing goes wrong and nobody cancels: out of budget, refused for
      an employee nobody knows, or regularly, with one call per tool node. */
  predicate UndisturbedEnd(w: World, w': World, runId: string, pc: nat, s: GraphState, resume: Option<ResumeValue>,
                           directory: map<string, Employee>, out: Outcome<GraphState>)
    requires runId in w.runs && runId in w'.runs
  {
    var r, calls := w.runs[runId], w'.runs[runId].toolCallCount - w.runs[runId].toolCallCount;
    if r.stepCount >= r.maxSteps || (CallsTool(pc) && !HasBudget(r)) then out == Raised(BudgetExceeded)
    else if pc == 0 && s.employeeId !in directory then
      out == Raised(PermanentToolError) && calls == 1 && FetchRefused(w.stepTrace, w'.stepTrace, runId)
    else EndsRegularly(pc, resume, out) && calls == if CallsTool(pc) then 1 else 0
  }

  /** The field a gate writes. */
  function Passed(pc: nat, s: GraphState, value: ResumeValue): GraphState {
    if pc == 2 then s.(approval := Some(value)) else s.(signedDocument := Some(value))
  }

  function PlanRows(w: World, runId: string): nat {
    CountFor(w.stepTrace, runId, PlanDeprovisioning)
  }

  /** The latest row of the trace is a planning row that failed with this error. */
  predicate PlanningFailed(trace: seq<StepAttempt>, runId: string, e: Error) {
    && trace != []
    && IsFor(trace[|trace| - 1], runId, PlanDeprovisioning)
    && trace[|trace| - 1].status.Failed? && trace[|trace| - 1].errorType == Some(e)
  }

  /** Only the planning node asks the model, at most once, and charges nothing for it; a
      failure to plan is that one failed row. */
  predicate AsksTheModel(w: World, w': World, runId: string, pc: nat, out: Outcome<GraphState>)
    requires runId in w.runs && runId in w'.runs
  {
    && PlanRows(w, runId) <= PlanRows(w', runId) <= PlanRows(w, runId) + 1
    && (pc != 1 ==> PlanRows(w', runId) == PlanRows(w, runId))
    && (pc == 1 ==> w'.runs[runId].toolCallCount == w.runs[runId].toolCallCount)
    && (pc == 1 && out.Raised? ==>
          if out.error.RunCancelled? || out.error.BudgetExceeded? then PlanRows(w', runId) == PlanRows(w, runId)
          else PlanRows(w', runId) == PlanRows(w, runId) + 1 && PlanningFailed(w'.stepTrace, runId, out.error))
  }

  /** The model is asked by the planning node alone. An answer that does not fit the HR record
      ends the node with `InvalidPlan`, and nothing else does. */
  predicate Answered(w: World, w': World, runId: string, pc: nat, s: GraphState, out: Outcome<GraphState>) {
    var before, after := AnswersFor(w.answers, runId), AnswersFor(w'.answers, runId);
    && (pc != 1 ==> after == before)
    && (after == before
        || (|after| == |before| + 1 && after[..|before|] == before && s.employee.Some?
            && (IsAcceptable(after[|before|], s.employee.value) || out.Crashed? || out == Raised(InvalidPlan))))
    && (out == Raised(InvalidPlan) ==>
          after != before && s.employee.Some? && !IsAcceptable(after[|after| - 1], s.employee.value))
  }

  /** The contract of every node. */
  ghost predicate NodeEnds(w: World, w': World, runId: string, pc: nat, s: GraphState, resume: Option<ResumeValue>,
                           directory: map<string, Employee>, out: Outcome<GraphState>) {
    && pc < END
    && Works(w, w', runId)
    && (out.Ok? ==> Returns(w, w', runId, pc, s, out.value))
    && (out.Ok? && pc == 0 ==> s.employeeId in directory && out.value.employee == Some(directory[s.employeeId]))
    && (out.Crashed? ==> w.mishaps < w'.mishaps)
    && AsksTheModel(w, w', runId, pc, out) && Answered(w, w', runId, pc, s, out)
    && (out.Ok? && IsGate(pc) ==> resume.Some? && out.value == Passed(pc, s, resume.value))
    && (out.Raised? ==> RaisesFor(w, w', runId, pc, resume, out.error))
    && (w.runs[runId].cancelRequested ==>
          out == Raised(RunCancelled) && w'.sideEffects == w.sideEffects && w'.providerEffects == w.providerEffects)
    && (w'.mishaps == w.mishaps ==> w'.runs[runId].cancelRequested == w.runs[runId].cancelRequested)
    && (w'.mishaps == w.mishaps && !w.runs[runId].cancelRequested ==>
          UndisturbedEnd(w, w', runId, pc, s, resume, directory, out))
  }

  lemma WorksTransitively(w: World, v: World, u: World, runId: string)
    requires Works(w, v, runId) && Works(v, u, runId)
    requires runId in u.runs && runId in v.runs && u.runs[runId].stepCount == v.runs[runId].stepCount
    ensures Works(w, u, runId)
  {
    EvolvesTransitively(w, v, u, runId);
  }

  /** Trace rows, the cancel flag, a guarded step and a charged, budgeted call keep the
      invariant of a run in flight. */
  lemma BookkeepingWorks(w: World, w': World, runId: string)
    requires RunInv(w, runId) && InFlight(w, runId) && IsLog(w'.stepTrace)
    requires w'.checkpoints == w.checkpoints && w'.sideEffects == w.sideEffects && w'.providerEffects == w.providerEffects
    requires runId in w'.runs && w'.runs == w.runs[runId := w'.runs[runId]]
    requires var r, r' := w.runs[runId], w'.runs[runId];
      && r' == r.(stepCount := r'.stepCount, cancelRequested := r'.cancelRequested)
      && (r.cancelRequested ==> r'.cancelRequested)
      && (r'.stepCount == r.stepCount || (r'.stepCount == r.stepCount + 1 && r'.stepCount <= r.maxSteps))
    requires w'.calls == w.calls && w.mishaps <= w'.mishaps && w'.statusLog == w.statusLog
    requires w'.flaggedAt == if w'.runs[runId].cancelRequested == w.runs[runId].cancelRequested then w.flaggedAt
                             else w.flaggedAt[runId := PositionIn(w.checkpoints, runId)]
    requires Pc(w, runId) < END && AppendsFor(w.stepTrace, w'.stepTrace, runId, NodeAt(Pc(w, runId)))
    requires IsGate(Pc(w, runId)) && LatestIsPaused(w'.stepTrace, runId, NodeAt(Pc(w, runId))) ==>
      PauseShows(w'.stepTrace, runId, Pc(w, runId), StateOf(w, runId))
    requires OnlyAsked(w, w', runId)
    ensures Works(w, w', runId)
  {
    hide EffectState, IsLog, LatestIsPaused, EffectsFit, StateFits, TraceFits, PlanFits, AppendsFor, PauseShows, LabelsFit, LogFits,
         AnswersFor, IsOwn, IsOwnKey, Appends, LogFor, CallsFor;
    SameTablesSameEffects(w, w', runId);
    SameTablesSameFit(w, w', runId, Pc(w, runId), StateOf(w, runId));
    AskingKeepsThePlan(w, w', runId);
    EffectsAheadAreFresh(w, runId);
    AppendsForAppends(w.stepTrace, w'.stepTrace, runId, NodeAt(Pc(w, runId)));
    NodesKeepTheTrace(w.stepTrace, w'.stepTrace, runId, Pc(w, runId), StateOf(w, runId));
  }

  lemma EffectsAheadAreFresh(w: World, runId: string)
    requires RunInv(w, runId) && InFlight(w, runId)
    ensures forall e: Effect :: NodeOf(e) > Pc(w, runId) ==> EffectState(w, runId, e) == FRESH
  {
    hide EffectState, TraceFits, LabelsFit, PlanFits, LogFits;
  }

  lemma AskingKeepsThePlan(w: World, w': World, runId: string)
    requires ThreadId(runId) in w.checkpoints && OnlyAsked(w, w', runId)
    requires StateFits(Pc(w, runId), StateOf(w, runId)) && PlanFits(AnswersFor(w.answers, runId), StateOf(w, runId))
    ensures PlanFits(AnswersFor(w'.answers, runId), StateOf(w, runId))
  {
  }

  /** Only the planning node adds to the answers, and only to its run's. */
  ghost predicate OnlyAsked(w: World, w': World, runId: string)
    requires ThreadId(runId) in w.checkpoints
  {
    && (forall r :: r != runId ==> AnswersFor(w'.answers, r) == AnswersFor(w.answers, r))
    && AnswersFor(w.answers, runId) <= AnswersFor(w'.answers, runId)
    && (Pc(w, runId) != 1 ==> AnswersFor(w'.answers, runId) == AnswersFor(w.answers, runId))
  }

  /** One `execute` of a node's side effect keeps the invariant, whatever happened in it. */
  lemma ExecutingWorks(w: World, w': World, runId: string, e: Effect, p: ToolProfile, cs: seq<Script>, charged: nat)
    requires RunInv(w, runId) && InFlight(w, runId) && Pc(w, runId) == NodeOf(e) && Truthful(p)
    requires IsLog(w'.stepTrace) && AppendsFor(w.stepTrace, w'.stepTrace, runId, NodeAt(NodeOf(e))) && w.mishaps <= w'.mishaps
    requires w'.checkpoints == w.checkpoints && w'.statusLog == w.statusLog && w'.flaggedAt == w.flaggedAt && w'.answers == w.answers
    requires !w.runs[runId].cancelRequested
    requires Spent(w.runs, w'.runs, runId, charged) && CallsGrewBy(w.calls, w'.calls, runId, charged)
    requires Labelled(w.sideEffects, w'.sideEffects, KeyOf(runId, e), runId, NodeAt(NodeOf(e)), SpecOf(ToolOf(e)).name)
    requires OnlyKey(w.sideEffects, w.providerEffects, w'.sideEffects, w'.providerEffects, IdOf(runId, e))
    requires Tracked(p, EffectState(w, runId, e), EffectState(w', runId, e), ReceiptOf(e, runId, StateOf(w, runId)), cs)
    ensures Works(w, w', runId) && w'.runs[runId].stepCount == w.runs[runId].stepCount
    ensures cs != [] && LastOutcome(p, EffectState(w, runId, e), cs).Ok? ==>
      && IsSettledWith(EffectState(w', runId, e), ReceiptOf(e, runId, StateOf(w, runId)))
      && LastOutcome(p, EffectState(w, runId, e), cs).value.result == ReceiptOf(e, runId, StateOf(w, runId))
  {
    hide RunOnceSpec, RunMany, LastOutcome, OnlyKey, EffectState, Receipt, ArgsOf, IsLog, Appends, Matches, LatestIsPaused, LogFits, StateFits, IsOwn, IsOwnKey,
         NotStarted, TraceFits, AppendsFor, LabelsFit, Labelled, PlanFits, EffectsFit, RowMeans, IsSettledWith, AnswersFor, LogFor;
    EffectsKeepFitting(w, w', runId, e, p, cs);
    AppendsForAppends(w.stepTrace, w'.stepTrace, runId, NodeAt(NodeOf(e)));
    NodesKeepTheTrace(w.stepTrace, w'.stepTrace, runId, NodeOf(e), StateOf(w, runId));
    LabelsKeepFitting(w, w', runId, e);
    OnlyThisKeyMoved(w, w', runId, e);
    EffectsAheadAreFresh(w, runId);
    match e case Revoke => case Send => case Archiving =>
  }

  /** The one effect at hand keeps its meaning, and the others are as they were. */
  lemma EffectsKeepFitting(w: World, w': World, runId: string, e: Effect, p: ToolProfile, cs: seq<Script>)
    requires RunInv(w, runId) && InFlight(w, runId) && Pc(w, runId) == NodeOf(e) && Truthful(p)
    requires OnlyKey(w.sideEffects, w.providerEffects, w'.sideEffects, w'.providerEffects, IdOf(runId, e))
    requires Tracked(p, EffectState(w, runId, e), EffectState(w', runId, e), ReceiptOf(e, runId, StateOf(w, runId)), cs)
    ensures EffectsFit(w', runId, Pc(w, runId), StateOf(w, runId))
    ensures EffectGrows(EffectState(w, runId, e), EffectState(w', runId, e))
    ensures cs != [] && LastOutcome(p, EffectState(w, runId, e), cs).Ok? ==>
      && IsSettledWith(EffectState(w', runId, e), ReceiptOf(e, runId, StateOf(w, runId)))
      && LastOutcome(p, EffectState(w, runId, e), cs).value.result == ReceiptOf(e, runId, StateOf(w, runId))
  {
    hide RunOnceSpec, RunMany, LastOutcome, OnlyKey, EffectState, Receipt, ArgsOf, IsLog, Matches, LatestIsPaused, LogFits, StateFits,
         NotStarted, TraceFits, LabelsFit, PlanFits, FlagFits;
    TheEffectAtHand(w, runId, e);
    OneReceiptForever(p, EffectState(w, runId, e), cs, ReceiptOf(e, runId, StateOf(w, runId)));
    OnlyThisKeyMoved(w, w', runId, e);
    match e case Revoke => case Send => case Archiving =>
  }

  lemma TheEffectAtHand(w: World, runId: string, e: Effect)
    requires RunInv(w, runId) && InFlight(w, runId) && Pc(w, runId) == NodeOf(e)
    ensures RowMeans(EffectState(w, runId, e), ReceiptOf(e, runId, StateOf(w, runId)))
  {
    hide EffectState, ReceiptOf, RowMeans, TraceFits, LabelsFit, PlanFits, LogFits;
    match e case Revoke => case Send => case Archiving =>
  }

  /** Moving one key of a run leaves its other effects alone, and everything else. */
  lemma OnlyThisKeyMoved(w: World, w': World, runId: string, e: Effect)
    requires OnlyKey(w.sideEffects, w.providerEffects, w'.sideEffects, w'.providerEffects, IdOf(runId, e))
    ensures forall other: Effect :: other != e ==> EffectState(w', runId, other) == EffectState(w, runId, other)
    ensures forall k: Key :: !IsOwnKey(runId, k) ==> RecordIn(w.sideEffects, k) == RecordIn(w'.sideEffects, k)
    ensures forall id: EffectId :: !IsOwn(runId, id) ==> Applied(w.providerEffects, id) == Applied(w'.providerEffects, id)
  {
    forall other: Effect | other != e
      ensures EffectState(w', runId, other) == EffectState(w, runId, other)
    {
    }
  }

  lemma LabelsKeepFitting(w: World, w': World, runId: string, e: Effect)
    requires OnlyKey(w.sideEffects, w.providerEffects, w'.sideEffects, w'.providerEffects, IdOf(runId, e))
    requires Labelled(w.sideEffects, w'.sideEffects, KeyOf(runId, e), runId, NodeAt(NodeOf(e)), SpecOf(ToolOf(e)).name)
    requires LabelsFit(w.sideEffects, runId)
    ensures LabelsFit(w'.sideEffects, runId)
  {
    forall other: Effect
      ensures LabelFits(w'.sideEffects, runId, other)
    {
      match other case Revoke => case Send => case Archiving =>
    }
  }

  /** The read tool's calls touch neither ledger nor providers. */
  lemma ReadingWorks(w: World, w': World, runId: string, charged: nat)
    requires RunInv(w, runId) && InFlight(w, runId) && Pc(w, runId) == 0
    requires IsLog(w'.stepTrace) && AppendsFor(w.stepTrace, w'.stepTrace, runId, StepName.FetchEmployee) && w.mishaps <= w'.mishaps
    requires w'.checkpoints == w.checkpoints && w'.statusLog == w.statusLog && w'.flaggedAt == w.flaggedAt && w'.answers == w.answers
    requires !w.runs[runId].cancelRequested
    requires Spent(w.runs, w'.runs, runId, charged) && CallsGrewBy(w.calls, w'.calls, runId, charged)
    requires w'.sideEffects == w.sideEffects && w'.providerEffects == w.providerEffects
    ensures Works(w, w', runId) && w'.runs[runId].stepCount == w.runs[runId].stepCount
  {
    hide EffectState, Receipt, ArgsOf, IsLog, Appends, LatestIsPaused, TraceFits, AppendsFor, LabelsFit;
    SameTablesSameEffects(w, w', runId);
    AppendsForAppends(w.stepTrace, w'.stepTrace, runId, StepName.FetchEmployee);
    NodesKeepTheTrace(w.stepTrace, w'.stepTrace, runId, 0, StateOf(w, runId));
  }

  /** What the guard did: the flag may have been raised from elsewhere in the meantime;
      a run that is cancelled or out of steps is stopped uncounted, any other counted. */
  ghost predicate GuardEnds(w: World, w': World, runId: string, out: Outcome<()>)
    requires runId in w.runs
  {
    && runId in w'.runs
    && w' == w.(runs := w.runs[runId := w'.runs[runId]], flaggedAt := w'.flaggedAt, mishaps := w'.mishaps)
    && w'.flaggedAt == (if w'.runs[runId].cancelRequested == w.runs[runId].cancelRequested then w.flaggedAt
                        else w.flaggedAt[runId := PositionIn(w.checkpoints, runId)])
    && w.mishaps <= w'.mishaps
    && var r, r' := w.runs[runId], w'.runs[runId];
       && r' == r.(stepCount := r'.stepCount, cancelRequested := r'.cancelRequested)
       && (r.cancelRequested ==> r'.cancelRequested && out == Raised(RunCancelled))
       && (out.Raised? ==>
             && r'.stepCount == r.stepCount
             && out == (if r'.cancelRequested then Raised(RunCancelled) else Raised(BudgetExceeded))
             && (!r'.cancelRequested ==> r.stepCount >= r.maxSteps))
       && (!out.Raised? ==> !r'.cancelRequested && r'.stepCount == r.stepCount + 1 && r'.stepCount <= r.maxSteps)
       && (w'.mishaps == w.mishaps && !r.cancelRequested && r.stepCount < r.maxSteps ==> out.Ok?)
       && (out.Crashed? ==> w.mishaps < w'.mishaps)
       && (w'.mishaps == w.mishaps ==> r'.cancelRequested == r.cancelRequested)
  }

  lemma TheTraceFitsSoFar(w: World, runId: string, pc: nat, s: GraphState)
    requires AtNode(w, runId, pc, s)
    ensures TraceFits(w.stepTrace, runId, pc, s) && PlanFits(AnswersFor(w.answers, runId), s) && StateFits(pc, s)
    ensures IsGate(pc) && LatestIsPaused(w.stepTrace, runId, NodeAt(pc)) ==> PauseShows(w.stepTrace, runId, pc, s)
    ensures AppendsFor(w.stepTrace, w.stepTrace, runId, NodeAt(pc))
  {
    hide EffectsFit;
  }

  lemma GuardWorks(w: World, v: World, runId: string, pc: nat, s: GraphState, out: Outcome<()>)
    requires AtNode(w, runId, pc, s) && GuardEnds(w, v, runId, out)
    ensures Works(w, v, runId) && AtNode(v, runId, pc, s)
  {
    hide EffectState, Receipt, ArgsOf, IsLog, TraceFits, LatestIsPaused, PauseShows;
    TheTraceFitsSoFar(w, runId, pc, s);
    BookkeepingWorks(w, v, runId);
  }

  /** A node that its guard stopped has ended as every node may. */
  lemma GuardStops(w: World, v: World, runId: string, pc: nat, s: GraphState, resume: Option<ResumeValue>, directory: map<string, Employee>,
                   g: Outcome<()>)
    requires AtNode(w, runId, pc, s) && GuardEnds(w, v, runId, g) && !g.Ok?
    ensures NodeEnds(w, v, runId, pc, s, resume, directory, g.PropagateFailure())
  {
    hide EffectState, Receipt, ArgsOf, IsLog, Evolves, RunInv;
    GuardWorks(w, v, runId, pc, s, g);
  }

  /** Rows of one step are no other step's, and the planning step's rows are the planning rows. */
  lemma RowsOfOneStep(w: World, v: World, u: World, runId: string, step: StepName)
    requires v.stepTrace == w.stepTrace && AppendsFor(v.stepTrace, u.stepTrace, runId, step)
    ensures Appends(v.stepTrace, u.stepTrace, runId)
    ensures PlanRows(u, runId) ==
      PlanRows(w, runId) + if step.PlanDeprovisioning? then |u.stepTrace| - |v.stepTrace| else 0
  {
    AppendsForAppends(v.stepTrace, u.stepTrace, runId, step);
    AppendedRowsCount(v.stepTrace, u.stepTrace, runId, step, PlanDeprovisioning);
  }

  lemma FetchedRecordsReturn(v: World, u: World, runId: string, s: GraphState, record: Employee)
    requires AtNode(v, runId, 0, s) && Works(v, u, runId)
    ensures var s' := s.(employee := Some(record));
      && StateFits(1, s') && EffectsFit(u, runId, 1, s') && StateGrows(s, s')
      && PlanFits(AnswersFor(u.answers, runId), s') && TraceFits(u.stepTrace, runId, 1, s')
  {
    hide EffectState, Receipt, IsLog, Evolves, IsSettledWith, LatestIsPaused, Matches, NoRows, LatestIs;
    StillAtTheNode(v, u, runId, 0, s);
    ReturningFitsTheTrace(u.stepTrace, runId, 0, s, s.(employee := Some(record)));
  }

  lemma StillAtTheNode(v: World, u: World, runId: string, pc: nat, s: GraphState)
    requires AtNode(v, runId, pc, s) && Works(v, u, runId)
    ensures AtNode(u, runId, pc, s) && TraceFits(u.stepTrace, runId, pc, s) && StateFits(pc, s)
    ensures PlanFits(AnswersFor(u.answers, runId), s)
  {
    hide EffectsFit, Evolves, TraceFits, StateFits, PlanFits;
  }

  /** The fetch node, from its guard to its end. */
  lemma FetchEnds(w: World, v: World, u: World, runId: string, s: GraphState, directory: map<string, Employee>, charged: nat,
                  g: Outcome<()>, fetched: Outcome<ExecutionResult>, tool: string, maxAttempts: int)
    requires AtNode(w, runId, 0, s) && GuardEnds(w, v, runId, g) && g.Ok?
    requires IsLog(u.stepTrace) && AppendsFor(v.stepTrace, u.stepTrace, runId, StepName.FetchEmployee)
    requires v.mishaps + (if fetched.Crashed? then 1 else 0) <= u.mishaps
    requires u.checkpoints == v.checkpoints && u.statusLog == v.statusLog && u.flaggedAt == v.flaggedAt && u.answers == v.answers
    requires Booked(v, u, runId, StepName.FetchEmployee, tool, maxAttempts, charged, fetched)
    requires u.sideEffects == v.sideEffects && u.providerEffects == v.providerEffects
    requires fetched.Ok? ==> s.employeeId in directory && fetched.value.result == EmployeeRecord(directory[s.employeeId])
    requires fetched.Raised? ==> fetched.error !in {ToolNotAllowed, ValueError, SideEffectReconciliationRequired}
    requires !HasBudget(v.runs[runId]) ==> fetched == Raised(BudgetExceeded) || fetched.Crashed?
    requires u.mishaps == v.mishaps && HasBudget(v.runs[runId]) ==>
      charged == 1 && if s.employeeId in directory then fetched.Ok? else fetched == Raised(PermanentToolError)
    ensures NodeEnds(w, u, runId, 0, s, None, directory,
              if fetched.Ok? then Ok(s.(employee := Some(fetched.value.result.employee))) else fetched.PropagateFailure())
  {
    hide EffectState, Receipt, ArgsOf, IsLog, Evolves, OnlyKey, CallsGrewBy, Appends, AppendsFor, RunInv, EffectsFit, LabelsFit, TraceFits,
         PlanFits, CountFor;
    GuardWorks(w, v, runId, 0, s, g);
    RowsOfOneStep(w, v, u, runId, StepName.FetchEmployee);
    ReadingWorks(v, u, runId, charged);
    WorksTransitively(w, v, u, runId);
    if fetched.Ok? {
      FetchedRecordsReturn(v, u, runId, s, fetched.value.result.employee);
    }
  }

  function WithReceipt(e: Effect, s: GraphState, r: Payload): GraphState {
    match e
    case Revoke => s.(revocation := Some(r))
    case Send => s.(paperwork := Some(r))
    case Archiving => s.(archive := Some(r))
  }

  lemma TheRowAtHandMeansWhatItSays(w: World, runId: string, e: Effect, s: GraphState)
    requires AtNode(w, runId, NodeOf(e), s)
    ensures RowMeansWhatItSays(EffectState(w, runId, e))
  {
    match e case Revoke => case Send => case Archiving =>
  }

  lemma SettledEffectsReturn(v: World, u: World, runId: string, e: Effect, s: GraphState)
    requires AtNode(v, runId, NodeOf(e), s) && Works(v, u, runId)
    requires IsSettledWith(EffectState(u, runId, e), ReceiptOf(e, runId, s))
    ensures var s' := WithReceipt(e, s, ReceiptOf(e, runId, s));
      && StateFits(NodeOf(e) + 1, s') && EffectsFit(u, runId, NodeOf(e) + 1, s') && StateGrows(s, s')
      && PlanFits(AnswersFor(u.answers, runId), s') && TraceFits(u.stepTrace, runId, NodeOf(e) + 1, s')
  {
    hide AtNode, Works, EffectState, ReceiptOf, TraceFits, StateFits, EffectsFit, StateGrows, IsSettledWith;
    SettledEffectsFit(v, u, runId, e, s);
    StillAtTheNode(v, u, runId, NodeOf(e), s);
    ReturningFitsTheTrace(u.stepTrace, runId, NodeOf(e), s, WithReceipt(e, s, ReceiptOf(e, runId, s)));
  }

  lemma SettledEffectsFit(v: World, u: World, runId: string, e: Effect, s: GraphState)
    requires AtNode(v, runId, NodeOf(e), s) && Works(v, u, runId)
    requires IsSettledWith(EffectState(u, runId, e), ReceiptOf(e, runId, s))
    ensures var s' := WithReceipt(e, s, ReceiptOf(e, runId, s));
      StateFits(NodeOf(e) + 1, s') && EffectsFit(u, runId, NodeOf(e) + 1, s') && StateGrows(s, s')
  {
    hide EffectState, Receipt, IsLog, Evolves, IsSettledWith, LatestIsPaused, Matches, TraceFits, PlanFits;
    match e case Revoke => case Send => case Archiving =>
  }

  /** A side-effecting node, from its guard to its end: when it returns, row, provider
      and returned state hold the one receipt the state determines. */
  lemma EffectEnds(w: World, v: World, u: World, runId: string, e: Effect, s: GraphState, directory: map<string, Employee>, p: ToolProfile,
                   cs: seq<Script>, charged: nat, g: Outcome<()>, done: Outcome<ExecutionResult>, step: StepName, tool: string,
                   maxAttempts: int)
    requires AtNode(w, runId, NodeOf(e), s) && GuardEnds(w, v, runId, g) && g.Ok? && Truthful(p)
    requires IsLog(u.stepTrace) && AppendsFor(v.stepTrace, u.stepTrace, runId, KeyOf(runId, e).stepName)
    requires v.mishaps + (if done.Crashed? then 1 else 0) <= u.mishaps
    requires u.checkpoints == v.checkpoints && u.statusLog == v.statusLog && u.flaggedAt == v.flaggedAt && u.answers == v.answers
    requires Booked(v, u, runId, step, tool, maxAttempts, charged, done)
    requires Labelled(v.sideEffects, u.sideEffects, KeyOf(runId, e), runId, KeyOf(runId, e).stepName, SpecOf(ToolOf(e)).name)
    requires !HasBudget(v.runs[runId]) ==> done == Raised(BudgetExceeded) || done.Crashed?
    requires OnlyKey(v.sideEffects, v.providerEffects, u.sideEffects, u.providerEffects, IdOf(runId, e))
    requires Tracked(p, EffectState(v, runId, e), EffectState(u, runId, e), ReceiptOf(e, runId, s), cs)
    requires done.Ok? ==> cs != [] && LastOutcome(p, EffectState(v, runId, e), cs) == Ok(done.value.AsLedger())
    requires done.Raised? ==> done.error !in {ToolNotAllowed, ValueError, SideEffectReconciliationRequired}
    requires u.mishaps == v.mishaps && RowMeansWhatItSays(EffectState(v, runId, e)) && HasBudget(v.runs[runId]) ==>
      done.Ok? && charged == 1
    ensures NodeEnds(w, u, runId, NodeOf(e), s, None, directory,
              if done.Ok? then Ok(WithReceipt(e, s, done.value.result)) else done.PropagateFailure())
  {
    hide EffectState, ReceiptOf, IsLog, Evolves, OnlyKey, CallsGrewBy, Appends, AppendsFor, Tracked, RunOnceSpec, RunMany, LastOutcome,
         RunInv, EffectsFit, StateFits, StateGrows, CountFor, IsSettledWith, RowsOfExecute, LabelsFit, Labelled, TraceFits, PlanFits,
         WithReceipt, RowMeansWhatItSays;
    GuardWorks(w, v, runId, NodeOf(e), s, g);
    RowsOfOneStep(w, v, u, runId, KeyOf(runId, e).stepName);
    ExecutingWorks(v, u, runId, e, p, cs, charged);
    WorksTransitively(w, v, u, runId);
    TheRowAtHandMeansWhatItSays(v, runId, e, s);
    if done.Ok? {
      SettledEffectsReturn(v, u, runId, e, s);
    }
  }

  /** Nothing but trace rows were written. */
  predicate OnlyTraced(v: World, u: World) {
    u == v.(stepTrace := u.stepTrace, mishaps := u.mishaps) && v.mishaps <= u.mishaps
  }

  lemma PassedGatesReturn(v: World, u: World, runId: string, pc: nat, s: GraphState, value: ResumeValue)
    requires AtNode(v, runId, pc, s) && IsGate(pc) && OnlyTraced(v, u) && (pc == 2 ==> Approves(value))
    requires TraceFits(u.stepTrace, runId, pc, s)
    ensures StateFits(pc + 1, Passed(pc, s, value)) && EffectsFit(u, runId, pc + 1, Passed(pc, s, value))
    ensures StateGrows(s, Passed(pc, s, value)) && TraceFits(u.stepTrace, runId, pc + 1, Passed(pc, s, value))
    ensures PlanFits(AnswersFor(u.answers, runId), Passed(pc, s, value))
  {
    hide EffectState, Receipt, IsLog, LatestIsPaused, Matches, LogFits, FlagFits, IsSettledWith, TraceFits;
    SameTablesSameEffects(v, u, runId);
    ReturningFitsTheTrace(u.stepTrace, runId, pc, s, Passed(pc, s, value));
  }

  /** A gate, from its guard to its end: it pauses, or it consumes the value, and the
      first one lets nothing but an approval through. */
  lemma GateEnds(w: World, v: World, u: World, runId: string, pc: nat, s: GraphState, resume: Option<ResumeValue>,
                 directory: map<string, Employee>, g: Outcome<()>, out: Outcome<GraphState>)
    requires AtNode(w, runId, pc, s) && IsGate(pc) && GuardEnds(w, v, runId, g) && g.Ok?
    requires OnlyTraced(v, u) && IsLog(u.stepTrace) && AppendsFor(v.stepTrace, u.stepTrace, runId, NodeAt(pc))
    requires out.Ok? ==> resume.Some? && out.value == Passed(pc, s, resume.value) && (pc == 2 ==> Approves(resume.value))
    requires out.Raised? ==>
      || (out.error == GraphInterrupt(GateReason(pc)) && resume.None? && LatestIsPaused(u.stepTrace, runId, NodeAt(pc)))
      || (out.error == ApprovalRejected && pc == 2 && resume.Some? && !Approves(resume.value))
    requires out.Crashed? ==> v.mishaps < u.mishaps
    requires LatestIsPaused(u.stepTrace, runId, NodeAt(pc)) ==> PauseShows(u.stepTrace, runId, pc, s)
    ensures NodeEnds(w, u, runId, pc, s, resume, directory, out)
  {
    hide EffectState, Receipt, IsLog, Evolves, Appends, LatestIsPaused, RunInv, StateFits, EffectsFit, StateGrows, CountFor, AppendsFor,
         Passed, TraceFits, PlanFits, PauseShows, LabelsFit;
    GuardWorks(w, v, runId, pc, s, g);
    BookkeepingWorks(v, u, runId);
    StillAtTheNode(v, u, runId, pc, s);
    if out.Ok? {
      PassedGatesReturn(v, u, runId, pc, s, resume.value);
    }
    RowsOfOneStep(w, v, u, runId, NodeAt(pc));
    WorksTransitively(w, v, u, runId);
  }

  lemma APlanningSpanShowsThePlan(t: seq<StepAttempt>, t': seq<StepAttempt>, runId: string, tool: Option<string>, items: seq<ChecklistItem>)
    requires SpanTraced(t, t', runId, StepName.PlanDeprovisioning, tool, PlanDetail(Systems(items)), None)
    ensures PlanShows(t', runId, items)
  {
    assert IsLastFor(t', runId, PlanDeprovisioning, |t|);
  }

  lemma ASpanIsOneRow(t: seq<StepAttempt>, t': seq<StepAttempt>, runId: string, tool: Option<string>, e: Error)
    requires SpanTraced(t, t', runId, StepName.PlanDeprovisioning, tool, NoDetail, Some(e))
    ensures |t'| == |t| + 1 && PlanningFailed(t', runId, e)
  {
  }

  /** What the planning node wrote: its trace row, and the model's answer if there was one. */
  predicate OnlyPlanned(v: World, u: World, runId: string, answer: Option<RawPlan>) {
    && u == v.(stepTrace := u.stepTrace, answers := u.answers, mishaps := u.mishaps) && v.mishaps <= u.mishaps
    && u.answers == if answer.Some? then WithAnswer(v.answers, runId, answer.value) else v.answers
  }

  /** What became of the model's answer. */
  predicate AnswerDecides(answer: Option<RawPlan>, employee: Employee, planned: Outcome<DeprovisioningPlan>) {
    && (planned.Ok? ==> answer == Some(Shaped(planned.value)) && IsAcceptable(answer.value, employee))
    && (answer.Some? && !IsAcceptable(answer.value, employee) ==> planned == Raised(InvalidPlan) || planned.Crashed?)
    && (planned == Raised(InvalidPlan) ==> answer.Some? && !IsAcceptable(answer.value, employee))
  }

  function WithPlan(s: GraphState, plan: DeprovisioningPlan): GraphState {
    s.(checklist := Some(plan.items), planNotes := plan.notes)
  }

  lemma PlansReturn(v: World, u: World, runId: string, s: GraphState, plan: DeprovisioningPlan)
    requires AtNode(v, runId, 1, s) && AtNode(u, runId, 1, s) && OnlyPlanned(v, u, runId, Some(Shaped(plan)))
    requires s.employee.Some? && Matches(plan.items, s.employee.value) && PlanShows(u.stepTrace, runId, plan.items)
    ensures var s' := WithPlan(s, plan);
      && StateFits(2, s') && EffectsFit(u, runId, 2, s') && StateGrows(s, s')
      && PlanFits(AnswersFor(u.answers, runId), s') && TraceFits(u.stepTrace, runId, 2, s')
  {
    hide EffectState, Receipt, IsLog, LatestIsPaused, Matches, LogFits, FlagFits, IsSettledWith, LatestIs, NoRows;
    SameTablesSameEffects(v, u, runId);
    ReturningFitsTheTrace(u.stepTrace, runId, 1, s, WithPlan(s, plan));
  }

  /** The planning node: what it returns is the model's answer, item by item, and it matches
      the HR record of the state it read. */
  lemma PlanningEnds(w: World, v: World, u: World, runId: string, s: GraphState, directory: map<string, Employee>, g: Outcome<()>,
                     planned: Outcome<DeprovisioningPlan>, answer: Option<RawPlan>)
    requires AtNode(w, runId, 1, s) && GuardEnds(w, v, runId, g) && g.Ok? && s.employee.Some?
    requires OnlyPlanned(v, u, runId, answer) && AnswerDecides(answer, s.employee.value, planned)
    requires IsLog(u.stepTrace) && AppendsFor(v.stepTrace, u.stepTrace, runId, StepName.PlanDeprovisioning)
    requires |u.stepTrace| <= |v.stepTrace| + 1
    requires planned.Raised? ==> |u.stepTrace| == |v.stepTrace| + 1 && PlanningFailed(u.stepTrace, runId, planned.error)
    requires planned.Ok? ==> PlanShows(u.stepTrace, runId, planned.value.items)
    requires planned.Raised? ==> planned.error in {InvalidPlan, TransientToolError, PermanentToolError, ForeignError}
    requires !planned.Ok? ==> v.mishaps < u.mishaps
    ensures NodeEnds(w, u, runId, 1, s, None, directory,
              if planned.Ok? then Ok(WithPlan(s, planned.value)) else planned.PropagateFailure())
  {
    hide EffectState, Receipt, IsLog, Evolves, Appends, AppendsFor, LatestIsPaused, Matches, RunInv, EffectsFit, StateFits, StateGrows,
         TraceFits, PlanFits, LabelsFit, CountFor, PlanShows, WithPlan, PlanningFailed;
    GuardWorks(w, v, runId, 1, s, g);
    BookkeepingWorks(v, u, runId);
    StillAtTheNode(v, u, runId, 1, s);
    if planned.Ok? {
      PlansReturn(v, u, runId, s, planned.value);
    }
    RowsOfOneStep(w, v, u, runId, StepName.PlanDeprovisioning);
    WorksTransitively(w, v, u, runId);
  }

  /** One row was added, for this gate, paused for this reason. */
  predicate PauseTraced(t: seq<StepAttempt>, t': seq<StepAttempt>, runId: string, step: StepName, reason: PauseReason, detail: Detail) {
    && |t'| == |t| + 1
    && t'[..|t|] == t
    && IsFor(t'[|t|], runId, step)
    && t'[|t|].status.Paused? && t'[|t|].pauseReason == Some(reason) && t'[|t|].detail == detail
  }

  lemma TheLastRowIsTheLatest(t: seq<StepAttempt>, row: StepAttempt)
    ensures LatestIs(t + [row], row.runId, row.stepName, row.status, row.pauseReason, row.detail)
    ensures LatestIsPaused(t + [row], row.runId, row.stepName) <==> row.status.Paused?
  {
    assert IsLastFor(t + [row], row.runId, row.stepName, |t|);
  }

  lemma TheLastRowDecides(t: seq<StepAttempt>, runId: string, step: StepName)
    requires t != [] && IsFor(t[|t| - 1], runId, step)
    ensures LatestIsPaused(t, runId, step) <==> t[|t| - 1].status.Paused?
  {
    assert IsLastFor(t, runId, step, |t| - 1);
  }

  lemma APauseIsTheLatestRow(t: seq<StepAttempt>, t': seq<StepAttempt>, runId: string, step: StepName, reason: PauseReason,
                             detail: Detail)
    requires PauseTraced(t, t', runId, step, reason, detail)
    ensures LatestIsPaused(t', runId, step)
  {
    assert IsLastFor(t', runId, step, |t|);
  }

  lemma TruthfulToolsCanBeAsked(p: ToolProfile)
    requires Truthful(p)
    ensures p.queryable
  {
  }

  /** What a node may rely on once its effect was executed. */
  lemma EffectsAreHandled(v: World, u: World, runId: string, e: Effect, s: GraphState, tool: Tool, cs: seq<Script>, charged: nat,
                          done: Outcome<ExecutionResult>)
    requires tool.kind == ToolOf(e) && Truthful(tool.profile) && runId in v.runs
    requires Handled(v, u, tool, ArgsOf(e, s), KeyOf(runId, e), cs, done)
    requires WentWell(v, u, runId, tool, ArgsOf(e, s), KeyOf(runId, e), charged, done)
    ensures OnlyKey(v.sideEffects, v.providerEffects, u.sideEffects, u.providerEffects, IdOf(runId, e))
    ensures Tracked(tool.profile, EffectState(v, runId, e), EffectState(u, runId, e), ReceiptOf(e, runId, s), cs)
    ensures Labelled(v.sideEffects, u.sideEffects, KeyOf(runId, e), runId, KeyOf(runId, e).stepName, SpecOf(ToolOf(e)).name)
    ensures done.Ok? ==> cs != [] && LastOutcome(tool.profile, EffectState(v, runId, e), cs) == Ok(done.value.AsLedger())
    ensures !HasBudget(v.runs[runId]) ==> done == Raised(BudgetExceeded) || done.Crashed?
    ensures u.mishaps == v.mishaps && RowMeansWhatItSays(EffectState(v, runId, e)) && HasBudget(v.runs[runId]) ==>
      done.Ok? && charged == 1
    ensures done != Raised(SideEffectReconciliationRequired)
  {
    hide OnlyKey, Tracked, Labelled, LastOutcome, KeyStateIn, RowMeansWhatItSays, HasBudget, Receipt;
    match e case Revoke => case Send => case Archiving =>
  }

  lemma ReadsAreHandled(v: World, u: World, runId: string, tool: Tool, employeeId: string, key: Key, cs: seq<Script>, charged: nat,
                        fetched: Outcome<ExecutionResult>)
    requires tool.kind == HrDirectory && tool.profile.queryable && runId in v.runs
    requires Handled(v, u, tool, EmployeeArgs(employeeId), key, cs, fetched)
    requires WentWell(v, u, runId, tool, EmployeeArgs(employeeId), key, charged, fetched)
    ensures u.sideEffects == v.sideEffects && u.providerEffects == v.providerEffects
    ensures fetched.Ok? ==> employeeId in tool.directory && fetched.value.result == EmployeeRecord(tool.directory[employeeId])
    ensures !HasBudget(v.runs[runId]) ==> fetched == Raised(BudgetExceeded) || fetched.Crashed?
    ensures u.mishaps == v.mishaps && HasBudget(v.runs[runId]) ==>
      charged == 1 && if employeeId in tool.directory then fetched.Ok? else fetched == Raised(PermanentToolError)
    ensures fetched != Raised(SideEffectReconciliationRequired)
  {
    hide OnlyKey, Tracked, Labelled, LastOutcome, KeyStateIn, RowMeansWhatItSays, HasBudget, Receipt;
  }

  lemma InFlightRunExists(w: World, runId: string)
    requires RunInv(w, runId) && InFlight(w, runId)
    ensures runId in w.runs && IsLog(w.stepTrace)
  {
  }

  lemma CheckpointHoldsTheRecord(w: World, runId: string, pc: nat, s: GraphState)
    requires AtNode(w, runId, pc, s)
    ensures s.employee.Some? <==> pc >= 1
    ensures s.runId == runId
    ensures pc == NodeOf(Revoke) || pc == NodeOf(Send) || pc == NodeOf(Archiving) ==> s.checklist.Some?
  {
  }

  class Workflow {
    const runs: RunRepository
    const trace: TraceRepository
    const executor: ToolExecutor
    const llm: LlmProvider
    const db: Store := trace.db

    constructor (runs: RunRepository, trace: TraceRepository, executor: ToolExecutor, llm: LlmProvider)
      ensures this.runs == runs && this.trace == trace && this.executor == executor && this.llm == llm
    {
      this.runs, this.trace, this.executor, this.llm := runs, trace, executor, llm;
    }

    ghost predicate Wired()
      reads executor.registry
    {
      runs.db == db && executor.db == db && executor.Wired() && ToolsWired(executor.registry)
    }

    /** Refuses to start a step that must not run; otherwise counts it. */
    method Guard(runId: string) returns (out: Outcome<()>)
      requires runs.db == db
      modifies db`runs, db`flaggedAt, db`mishaps
      ensures runId !in old(db.runs) ==> out == Raised(RunNotFound) && db.W() == old(db.W())
      ensures runId in old(db.runs) ==> GuardEnds(old(db.W()), db.W(), runId, out)
    {
      db.CancelFromElsewhere(runId);
      var run :- runs.Get(runId);
      if run.cancelRequested {
        return Raised(RunCancelled);
      }
      if run.stepCount >= run.maxSteps {
        return Raised(BudgetExceeded);
      }
      var _ :- runs.BumpCounters(runId, 1, 0);
      return Ok(());
    }

    /** The HR directory the read tool answers from. */
    ghost function Directory(): map<string, Employee>
      requires Wired()
      reads executor.registry
    {
      executor.registry.tools[SpecOf(HrDirectory).name].directory
    }

    // ------------------------------------------------------------------- steps

    /** Step 1: the HR record everything after it depends on. */
    method FetchEmployee(s: GraphState) returns (out: Outcome<GraphState>)
      requires Wired() && AtNode(db.W(), s.runId, 0, s)
      modifies db
      ensures NodeEnds(old(db.W()), db.W(), s.runId, 0, s, None, Directory(), out)
    {
      hide EffectState, Receipt, ArgsOf, IsLog, Evolves, OnlyKey, CallsGrewBy, RunInv, Works, NodeEnds, Spent, Tracked,
           Booked, KeyStateIn, Truthful, RunOnceSpec, GuardEnds, Appends, AppendsFor, Handled, WentWell;
      ghost var w := db.W();
      var g := Guard(s.runId);
      ghost var v := db.W();
      if !g.Ok? {
        GuardStops(w, v, s.runId, 0, s, None, Directory(), g);
        return g.PropagateFailure();
      }
      GuardWorks(w, v, s.runId, 0, s, g);
      InFlightRunExists(v, s.runId);
      var fetched, cs, charged := executor.Execute(s.runId, StepName.FetchEmployee, HR_DIRECTORY, Allowlist(StepName.FetchEmployee),
                                                   EmployeeArgs(s.employeeId), None);
      ghost var tool := executor.registry.tools[SpecOf(HrDirectory).name];
      TruthfulToolsCanBeAsked(tool.profile);
      ReadsAreHandled(v, db.W(), s.runId, tool, s.employeeId, Key(s.runId, StepName.FetchEmployee, ""), cs, charged, fetched);
      FetchEnds(w, v, db.W(), s.runId, s, Directory(), charged, g, fetched, HR_DIRECTORY, executor.maxAttempts);
      if !fetched.Ok? {
        return fetched.PropagateFailure();
      }
      return Ok(s.(employee := Some(fetched.value.result.employee)));
    }

    /** Step 2: the checklist, validated before it is trusted. Not retried: the call does
        not go through the executor. */
    method PlanDeprovisioning(s: GraphState) returns (out: Outcome<GraphState>)
      requires Wired() && AtNode(db.W(), s.runId, 1, s)
      modifies db
      ensures NodeEnds(old(db.W()), db.W(), s.runId, 1, s, None, Directory(), out)
    {
      hide EffectState, Receipt, ArgsOf, IsLog, Evolves, RunInv, Works, NodeEnds, Truthful, GuardEnds;
      ghost var w := db.W();
      CheckpointHoldsTheRecord(w, s.runId, 1, s);
      var g := Guard(s.runId);
      ghost var v := db.W();
      if !g.Ok? {
        GuardStops(w, v, s.runId, 1, s, None, Directory(), g);
        return g.PropagateFailure();
      }
      GuardWorks(w, v, s.runId, 1, s, g);
      InFlightRunExists(v, s.runId);
      var planned, answer := TracedPlan(s.runId, s.employee.value);
      if planned.Raised? {
        ASpanIsOneRow(v.stepTrace, db.stepTrace, s.runId, Some("llm:" + llm.name), planned.error);
      }
      if planned.Ok? {
        APlanningSpanShowsThePlan(v.stepTrace, db.stepTrace, s.runId, Some("llm:" + llm.name), planned.value.items);
      }
      PlanningEnds(w, v, db.W(), s.runId, s, Directory(), g, planned, answer);
      if !planned.Ok? {
        return planned.PropagateFailure();
      }
      return Ok(s.(checklist := Some(planned.value.items), planNotes := planned.value.notes));
    }

    /** The model's answer, inside its trace span. */
    method TracedPlan(runId: string, employee: Employee) returns (out: Outcome<DeprovisioningPlan>, ghost answer: Option<RawPlan>)
      requires IsLog(db.stepTrace) && runId in db.runs
      modifies db`stepTrace, db`answers, db`mishaps
      ensures IsLog(db.stepTrace) && AppendsFor(old(db.stepTrace), db.stepTrace, runId, StepName.PlanDeprovisioning)
      ensures |db.stepTrace| <= |old(db.stepTrace)| + 1
      ensures OnlyPlanned(old(db.W()), db.W(), runId, answer) && AnswerDecides(answer, employee, out)
      ensures out.Raised? ==> out.error in {InvalidPlan, TransientToolError, PermanentToolError, ForeignError}
      ensures !out.Ok? ==> old(db.mishaps) < db.mishaps
      ensures !out.Crashed? ==>
        SpanTraced(old(db.stepTrace), db.stepTrace, runId, StepName.PlanDeprovisioning, Some("llm:" + llm.name),
                   if out.Ok? then PlanDetail(Systems(out.value.items)) else NoDetail,
                   if out.Ok? then None else Some(out.error))
    {
      hide IsLog, Matches, CountFor;
      answer := None;
      var span := OpenSpan(trace, runId, StepName.PlanDeprovisioning, Some("llm:" + llm.name));
      if !span.Ok? {
        return span.PropagateFailure(), answer;
      }
      out, answer := llm.GeneratePlan(db, runId, employee);
      if out.Crashed? {
        return;
      }
      if out.Ok? {
        span.value.SetDetail(PlanDetail(Systems(out.value.items)));
      }
      var closed := CloseSpan(trace, span.value, runId, StepName.PlanDeprovisioning, if out.Raised? then Some(out.error) else None);
      if !closed.Ok? {
        out := Crashed;
      }
    }

    /** Whether this step's latest trace row is already a pause. */
    method AlreadyPausedHere(runId: string, step: StepName) returns (paused: bool)
      requires IsLog(db.stepTrace)
      ensures paused <==> LatestIsPaused(db.stepTrace, runId, step)
    {
      var latest := trace.LatestForStep(runId, step);
      ghost var last := LatestCarriesTheCount(db.stepTrace, runId, step, latest);
      paused := latest.Some? && latest.value.status.Paused?;
    }

    /** The part of a gate before `interrupt()`: it runs again on every entry, so it
        checks before it writes. */
    method EnterGate(runId: string, step: StepName, reason: PauseReason, detail: Detail) returns (out: Outcome<()>)
      requires IsLog(db.stepTrace) && runId in db.runs
      modifies db`stepTrace, db`mishaps
      ensures IsLog(db.stepTrace) && AppendsFor(old(db.stepTrace), db.stepTrace, runId, step) && !out.Raised?
      ensures out.Ok? ==> LatestIsPaused(db.stepTrace, runId, step)
      ensures LatestIsPaused(old(db.stepTrace), runId, step) ==> db.stepTrace == old(db.stepTrace)
      ensures !LatestIsPaused(old(db.stepTrace), runId, step) && out.Ok? ==>
        PauseTraced(old(db.stepTrace), db.stepTrace, runId, step, reason, detail)
      ensures LatestIsPaused(db.stepTrace, runId, step) ==>
        || db.stepTrace == old(db.stepTrace)
        || LatestIs(db.stepTrace, runId, step, StepStatus.Paused, Some(reason), detail)
      ensures db.mishaps == old(db.mishaps) + if out.Crashed? then 1 else 0
    {
      hide IsLog, LatestIsPaused, LatestIs, PauseTraced;
      ghost var before := db.stepTrace;
      var paused := AlreadyPausedHere(runId, step);
      if paused {
        return Ok(());
      }
      out := RecordPause(runId, step, reason, detail);
      if out.Ok? {
        APauseIsTheLatestRow(before, db.stepTrace, runId, step, reason, detail);
      }
    }

    method RecordPause(runId: string, step: StepName, reason: PauseReason, detail: Detail) returns (out: Outcome<()>)
      requires IsLog(db.stepTrace) && runId in db.runs
      modifies db`stepTrace, db`mishaps
      ensures IsLog(db.stepTrace) && AppendsFor(old(db.stepTrace), db.stepTrace, runId, step) && !out.Raised?
      ensures out.Ok? ==> PauseTraced(old(db.stepTrace), db.stepTrace, runId, step, reason, detail)
      ensures LatestIsPaused(db.stepTrace, runId, step) ==>
        LatestIs(db.stepTrace, runId, step, StepStatus.Paused, Some(reason), detail)
      ensures db.mishaps == old(db.mishaps) + if out.Crashed? then 1 else 0
    {
      hide IsLog, CountFor, LatestIsPaused, LatestIs;
      ghost var before := db.stepTrace;
      TheLastRowIsTheLatest(before, Opened(before, runId, step, None));
      TheLastRowIsTheLatest(before, Closed(Opened(before, runId, step, None), StepStatus.Paused, Some(reason), None, detail));
      var row :- trace.StartAttempt(runId, step, None);
      var closed := trace.CloseAttempt(row.id, StepStatus.Paused, Some(reason), None, detail);
      assert db.stepTrace == before + [Closed(row, StepStatus.Paused, Some(reason), None, detail)];
      return if closed.Ok? then Ok(()) else Crashed;
    }

    /** `interrupt()` and the span after it: without a value the gate pauses; with one
        it records the value, and an HR decision that is not an approval is refused. */
    method TakeValue(runId: string, step: StepName, reason: PauseReason, resume: Option<ResumeValue>) returns (out: Outcome<ResumeValue>)
      requires IsLog(db.stepTrace) && runId in db.runs
      modifies db`stepTrace, db`mishaps
      ensures IsLog(db.stepTrace) && AppendsFor(old(db.stepTrace), db.stepTrace, runId, step)
      ensures resume.None? ==> out == Raised(GraphInterrupt(reason)) && db.W() == old(db.W())
      ensures resume.Some? && !out.Crashed? ==>
        && out == (if reason.HrApproval? && !Approves(resume.value) then Raised(ApprovalRejected) else Ok(resume.value))
        && SpanTraced(old(db.stepTrace), db.stepTrace, runId, step, None, ResumeDetail(resume.value),
                      if out.Ok? then None else Some(ApprovalRejected))
      ensures resume.Some? ==> !LatestIsPaused(db.stepTrace, runId, step)
      ensures db.mishaps == old(db.mishaps) + if out.Crashed? then 1 else 0
    {
      hide IsLog, LatestIsPaused, CountFor;
      if resume.None? {
        return Raised(GraphInterrupt(reason));
      }
      var span := OpenSpan(trace, runId, step, None);
      TheLastRowDecides(db.stepTrace, runId, step);
      if !span.Ok? {
        return span.PropagateFailure();
      }
      span.value.SetDetail(ResumeDetail(resume.value));
      var refused := reason.HrApproval? && !Approves(resume.value);
      var closed := CloseSpan(trace, span.value, runId, step, if refused then Some(ApprovalRejected) else None);
      TheLastRowDecides(db.stepTrace, runId, step);
      return if !closed.Ok? then Crashed else if refused then Raised(ApprovalRejected) else Ok(resume.value);
    }

    /** Steps 3 and 6 run the same way and differ in what they keep. */
    method PassGate(s: GraphState, pc: nat, detail: Detail, resume: Option<ResumeValue>) returns (out: Outcome<GraphState>)
      requires Wired() && IsGate(pc) && AtNode(db.W(), s.runId, pc, s) && detail == PauseDetailAt(pc, s)
      modifies db
      ensures NodeEnds(old(db.W()), db.W(), s.runId, pc, s, resume, Directory(), out)
    {
      hide EffectState, Receipt, ArgsOf, IsLog, Evolves, RunInv, Works, NodeEnds, Truthful, GuardEnds, Appends, LatestIsPaused, LatestIs,
           TraceFits;
      ghost var w := db.W();
      ghost var directory := Directory();
      var g := Guard(s.runId);
      ghost var v := db.W();
      if !g.Ok? {
        GuardStops(w, v, s.runId, pc, s, resume, directory, g);
        return g.PropagateFailure();
      }
      GuardWorks(w, v, s.runId, pc, s, g);
      InFlightRunExists(v, s.runId);
      TheTraceFitsSoFar(v, s.runId, pc, s);
      var entered := EnterGate(s.runId, NodeAt(pc), GateReason(pc), detail);
      ghost var e := db.W();
      if !entered.Ok? {
        out := Crashed;
      } else {
        var value := TakeValue(s.runId, NodeAt(pc), GateReason(pc), resume);
        AppendsForTransitively(v.stepTrace, e.stepTrace, db.stepTrace, s.runId, NodeAt(pc));
        out := if value.Ok? then Ok(Passed(pc, s, value.value)) else value.PropagateFailure();
      }
      GateEnds(w, v, db.W(), s.runId, pc, s, resume, directory, g, out);
    }

    /** Step 3: pause until HR decides; only an approval goes on. */
    method AwaitHrApproval(s: GraphState, resume: Option<ResumeValue>) returns (out: Outcome<GraphState>)
      requires Wired() && AtNode(db.W(), s.runId, 2, s)
      modifies db
      ensures NodeEnds(old(db.W()), db.W(), s.runId, 2, s, resume, Directory(), out)
    {
      out := PassGate(s, 2, PauseDetail(|ChecklistOf(s)|), resume);
    }

    /** Step 6: pause until the signed paperwork comes back. */
    method AwaitSignedDocument(s: GraphState, resume: Option<ResumeValue>) returns (out: Outcome<GraphState>)
      requires Wired() && AtNode(db.W(), s.runId, 5, s)
      modifies db
      ensures NodeEnds(old(db.W()), db.W(), s.runId, 5, s, resume, Directory(), out)
    {
      out := PassGate(s, 5, DocumentDetail(DocumentIdOf(PayloadOr(s.paperwork))), resume);
    }

    /** A side-effecting step: the guard, then its one tool call under its one key. */
    method Perform(e: Effect, s: GraphState, kwargs: Kwargs) returns (out: Outcome<GraphState>)
      requires Wired() && AtNode(db.W(), s.runId, NodeOf(e), s) && kwargs == ArgsOf(e, s)
      modifies db
      ensures NodeEnds(old(db.W()), db.W(), s.runId, NodeOf(e), s, None, Directory(), out)
    {
      hide IsLog, Evolves, OnlyKey, CallsGrewBy, RunInv, Works, NodeEnds, Spent, Tracked, Receipt, RowsOfExecute,
           KeyStateIn, Truthful, RunOnceSpec, GuardEnds, Appends, AppendsFor, LastOutcome, RowMeansWhatItSays, Booked, Handled, WentWell, Labelled;
      ghost var w := db.W();
      ghost var directory := Directory();
      var key := KeyOf(s.runId, e);
      var g := Guard(s.runId);
      ghost var v := db.W();
      if !g.Ok? {
        GuardStops(w, v, s.runId, NodeOf(e), s, None, directory, g);
        return g.PropagateFailure();
      }
      GuardWorks(w, v, s.runId, NodeOf(e), s, g);
      InFlightRunExists(v, s.runId);
      var done, cs, charged := executor.Execute(s.runId, key.stepName, SpecOf(ToolOf(e)).name, Allowlist(key.stepName),
                                                kwargs, Some(key.operation));
      ghost var tool := executor.registry.tools[SpecOf(ToolOf(e)).name];
      TruthfulToolsCanBeAsked(tool.profile);
      EffectsAreHandled(v, db.W(), s.runId, e, s, tool, cs, charged, done);
      EffectEnds(w, v, db.W(), s.runId, e, s, directory, tool.profile, cs, charged, g, done, key.stepName, SpecOf(ToolOf(e)).name,
                 executor.maxAttempts);
      if !done.Ok? {
        return done.PropagateFailure();
      }
      return Ok(WithReceipt(e, s, done.value.result));
    }

    /** Step 4: the first irreversible action, behind the approval gate. */
    method RevokeAccess(s: GraphState) returns (out: Outcome<GraphState>)
      requires Wired() && AtNode(db.W(), s.runId, 3, s)
      modifies db
      ensures NodeEnds(old(db.W()), db.W(), s.runId, 3, s, None, Directory(), out)
    {
      out := Perform(Revoke, s, RevokeArgs(s.employeeId, Systems(ChecklistOf(s))));
    }

    /** Step 5: one node, one side effect, one key. */
    method SendExitPaperwork(s: GraphState) returns (out: Outcome<GraphState>)
      requires Wired() && AtNode(db.W(), s.runId, 4, s)
      modifies db
      ensures NodeEnds(old(db.W()), db.W(), s.runId, 4, s, None, Directory(), out)
    {
      out := Perform(Send, s, SendArgs(s.employeeId, EmailOf(s), ChecklistOf(s)));
    }

    /** Step 7: the archive summarises what the receipts of the earlier steps say. */
    method Finalize(s: GraphState) returns (out: Outcome<GraphState>)
      requires Wired() && AtNode(db.W(), s.runId, 6, s)
      modifies db
      ensures NodeEnds(old(db.W()), db.W(), s.runId, 6, s, None, Directory(), out)
    {
      var summary := Summary(s.employeeId, Systems(ChecklistOf(s)), RevocationIdOf(PayloadOr(s.revocation)),
                             DocumentIdOf(PayloadOr(s.paperwork)), ApproverOf(s));
      out := Perform(Archiving, s, ArchiveArgs(s.employeeId, summary));
    }
  }
}
