/** The public surface over one run: it refuses what does not fit the run's status,
    drives the graph, and is the only writer of run statuses. */
module RunService {
  import opened Domain
  import opened Durable
  import opened Graph
  import opened Invariant
  import opened Nodes
  import opened Plan
  import opened RunTable
  import opened TraceTable

  // ------------------------------------------------- what an outcome means

  datatype Verdict = Verdict(status: RunStatus, pause: Option<PauseReason>, failure: Option<FailureReason>)

  /** The `except` ladder and the two normal returns of `_advance`. `None`: the exception
      is nobody's here and goes to the caller. */
  function VerdictOn(ended: Outcome<GraphResult>): Option<Verdict> {
    match ended
    case Ok(Finished) => Some(Verdict(RunStatus.Completed, None, None))
    case Ok(Interrupted(reason)) => Some(Verdict(RunStatus.Paused, Some(reason), None))
    case Crashed => None
    case Raised(e) =>
      if e.RunCancelled? then Some(Verdict(RunStatus.Cancelled, None, None))
      else if e.ApprovalRejected? then Some(Verdict(RunStatus.Failed, None, Some(ApprovalRejection)))
      else if e.BudgetExceeded? then Some(Verdict(RunStatus.Failed, None, Some(BudgetExhausted)))
      else if e.ToolNotAllowed? then Some(Verdict(RunStatus.Failed, None, Some(ToolRefused)))
      else if e.InvalidPlan? then Some(Verdict(RunStatus.Failed, None, Some(PlanInvalid)))
      else if e.SideEffectReconciliationRequired? then Some(Verdict(RunStatus.Failed, None, Some(NeedsReconciliation)))
      else if IsToolError(e) then Some(Verdict(RunStatus.Failed, None, Some(ToolFailed)))
      else None
  }

  function WithVerdict(w: World, runId: string, v: Verdict): World
    requires runId in w.runs
  {
    w.(runs := w.runs[runId := WithStatus(w.runs[runId], v.status, v.pause, v.failure)],
       statusLog := Logged(w.statusLog, runId, v.status))
  }

  /** The verdict was written, or the process died first or right after; an exception
      without a verdict left the status alone. */
  predicate Judged(v: World, u: World, runId: string, ended: Outcome<GraphResult>, out: Outcome<()>)
    requires runId in v.runs
  {
    match VerdictOn(ended)
    case None => u == v && !ended.Ok? && out == ended.PropagateFailure()
    case Some(verdict) =>
      && u == WithVerdict(v, runId, verdict).(mishaps := u.mishaps)
      && !out.Raised?
      && u.mishaps == v.mishaps + if out.Crashed? then 1 else 0
  }

  /** A verdict a run in flight can take. */
  ghost predicate Fits(v: World, runId: string, verdict: Verdict) {
    && InFlight(v, runId) && v.runs[runId].pauseReason.None? && v.runs[runId].failureReason.None?
    && var pc := Pc(v, runId);
       match verdict
       case Verdict(Paused, pause, failure) =>
         && IsGate(pc) && pause == Some(GateReason(pc)) && failure.None? && v.checkpoints[ThreadId(runId)].resume.None?
         && LatestIsPaused(v.stepTrace, runId, NodeAt(pc)) && StepsBefore(pc) + 1 <= v.runs[runId].stepCount
       case Verdict(Completed, pause, failure) => pc == END && pause.None? && failure.None?
       case Verdict(Failed, pause, failure) => pc < END && pause.None? && failure.Some? && FailureFits(v.runs[runId].(failureReason := failure), pc)
       case Verdict(Cancelled, pause, failure) => pc < END && pause.None? && failure.None?
       case _ => false
  }

  lemma LogsExtend(log: seq<RunStatus>, status: RunStatus, target: RunStatus)
    requires LogFits(log, status) && target in AllowedRunTransitions(status)
    ensures LogFits(log + [target], target)
  {
  }

  /** What a legal status write does to a run, whatever the status. */
  lemma WritingAStatus(w: World, runId: string, v: Verdict)
    requires RunInv(w, runId) && runId in w.runs && v.status in AllowedRunTransitions(w.runs[runId].status)
    ensures var u := WithVerdict(w, runId, v);
      LogFits(LogFor(u.statusLog, runId), v.status) && FlagFits(u, u.runs[runId]) && Evolves(w, u, runId)
  {
    hide EffectState, Started, NotStarted, LogFits, AllowedRunTransitions, LabelsFit, Evolves, IsLog;
    LogsExtend(LogFor(w.statusLog, runId), w.runs[runId].status, v.status);
    SameTablesSameEffects(w, WithVerdict(w, runId, v), runId);
    StatusWritesEvolve(w, runId, v);
  }

  lemma StatusWritesEvolve(w: World, runId: string, v: Verdict)
    requires runId in w.runs
    ensures Evolves(w, WithVerdict(w, runId, v), runId)
  {
    hide EffectState, Appends, IsOwn, IsOwnKey, Applied, AnswersFor, RecordIn, CallsFor;
    SameTablesSameEffects(w, WithVerdict(w, runId, v), runId);
    OnTheSpot(w, runId);
  }

  lemma OnTheSpot(w: World, runId: string)
    ensures Appends(w.stepTrace, w.stepTrace, runId)
  {
  }

  lemma FittingVerdictsKeep(v: World, runId: string, verdict: Verdict)
    requires RunInv(v, runId) && Fits(v, runId, verdict)
    ensures verdict.status in AllowedRunTransitions(v.runs[runId].status)
    ensures RunInv(WithVerdict(v, runId, verdict), runId)
    ensures Evolves(v, WithVerdict(v, runId, verdict), runId)
  {
    hide EffectState, EffectsFit, StateFits, IsLog, LatestIsPaused, LogFits, FlagFits, Evolves, TraceFits, LabelsFit, PlanFits;
    WritingAStatus(v, runId, verdict);
    SameTablesSameFit(v, WithVerdict(v, runId, verdict), runId, Pc(v, runId), StateOf(v, runId));
  }

  lemma GraphLeavesTheRunRunning(w: World, v: World, runId: string, input: GraphInput, directory: map<string, Employee>, ended: Outcome<GraphResult>)
    requires GraphEnds(w, v, runId, input, directory, ended)
    ensures runId in v.runs && v.runs[runId].status.Running? && v.runs[runId].failureReason.None?
  {
  }

  /** However the graph ends, the verdict on it is a legal move and keeps the invariant. */
  lemma VerdictsFit(w: World, v: World, runId: string, input: GraphInput, directory: map<string, Employee>, ended: Outcome<GraphResult>)
    requires GraphEnds(w, v, runId, input, directory, ended) && VerdictOn(ended).Some?
    ensures runId in v.runs && VerdictOn(ended).value.status in AllowedRunTransitions(v.runs[runId].status)
    ensures RunInv(WithVerdict(v, runId, VerdictOn(ended).value), runId)
    ensures Evolves(v, WithVerdict(v, runId, VerdictOn(ended).value), runId)
  {
    hide Evolves, EffectsFit, IsLog, LatestIsPaused, SmoothEnd, HonoursCancel, ValueUsed, TraceFits, LabelsFit, PlanFits, AnswerUsed,
         ModelAsked;
    FittingVerdictsKeep(v, runId, VerdictOn(ended).value);
  }

  lemma JudgedKeeps(w: World, v: World, u: World, runId: string, input: GraphInput, directory: map<string, Employee>,
                    ended: Outcome<GraphResult>, out: Outcome<()>)
    requires GraphEnds(w, v, runId, input, directory, ended) && Judged(v, u, runId, ended, out)
    ensures RunInv(u, runId) && Evolves(w, u, runId)
  {
    hide RunInv, Evolves, StopsAt, HonoursCancel, ValueUsed, SmoothEnd;
    if VerdictOn(ended).Some? {
      var calm := WithVerdict(v, runId, VerdictOn(ended).value);
      VerdictsFit(w, v, runId, input, directory, ended);
      EvolvesTransitively(w, v, calm, runId);
      MishapsDoNotShow(calm, u, runId);
      EvolvesTransitively(w, calm, u, runId);
    }
  }

  /** Moving a run to RUNNING, from PENDING or from the pause it was in. */
  lemma StartingToRun(w: World, runId: string)
    requires RunInv(w, runId) && runId in w.runs && (w.runs[runId].status.Pending? || w.runs[runId].status.Paused?)
    ensures var u := WithVerdict(w, runId, Verdict(RunStatus.Running, None, None));
      && RunInv(u, runId) && Evolves(w, u, runId)
      && (w.runs[runId].status.Paused? ==> AtRaisedGate(u, runId) && w.runs[runId].pauseReason == Some(GateReason(Pc(u, runId))))
      && (w.runs[runId].status.Pending? ==> ThreadId(runId) !in u.checkpoints)
  {
    hide EffectState, EffectsFit, StateFits, IsLog, LatestIsPaused, LogFits, FlagFits, Evolves, TraceFits, LabelsFit, PlanFits;
    var u := WithVerdict(w, runId, Verdict(RunStatus.Running, None, None));
    WritingAStatus(w, runId, Verdict(RunStatus.Running, None, None));
    SameTablesSameEffects(w, u, runId);
    if ThreadId(runId) in w.checkpoints {
      SameTablesSameFit(w, u, runId, Pc(w, runId), StateOf(w, runId));
    }
  }

  // ------------------------------------------------------------------ requests

  datatype Request =
    | Start(employeeId: string, maxSteps: int, maxToolCalls: int)
    | Resolve(approved: bool, approver: string, note: Option<string>)
    | Sign(documentId: string, signedAt: string)
    | ResumeCrashed
    | Cancel

  predicate PausedFor(w: World, runId: string, reason: PauseReason) {
    runId in w.runs && w.runs[runId].status.Paused? && w.runs[runId].pauseReason == Some(reason)
  }

  /** The requests the run's status admits. */
  predicate Admits(w: World, runId: string, req: Request) {
    match req
    case Start(_, _, _) => runId !in w.runs
    case Resolve(_, _, _) => PausedFor(w, runId, HrApproval)
    case Sign(_, _) => PausedFor(w, runId, SignedDocument)
    case ResumeCrashed => runId in w.runs && w.runs[runId].status.Running?
    case Cancel => runId in w.runs && !IsTerminal(w.runs[runId].status)
  }

  function RefusalOf(w: World, runId: string, req: Request): Error {
    if req.Start? then IntegrityError else if runId !in w.runs then RunNotFound else InvalidRunOperation
  }

  function InputOf(runId: string, req: Request): GraphInput {
    match req
    case Start(employeeId, _, _) => Fresh(InitialState(runId, employeeId))
    case Resolve(approved, approver, note) => ResumeWith(Decision(approved, approver, note))
    case Sign(documentId, signedAt) => ResumeWith(Signature(documentId, signedAt))
    case ResumeCrashed | Cancel => Continue
  }

  /** The run's row as the request finds it, or makes it. */
  function RowFor(w: World, runId: string, req: Request): Run
    requires Admits(w, runId, req)
  {
    if req.Start? then NewRun(runId, req.employeeId, req.maxSteps, req.maxToolCalls) else w.runs[runId]
  }

  /** The move a driving request makes before the graph is invoked. */
  function Begun(w: World, runId: string, req: Request): World
    requires Admits(w, runId, req)
  {
    if req.ResumeCrashed? || req.Cancel? then w
    else if req.Start? then WithVerdict(Created(w, runId, RowFor(w, runId, req)), runId, Verdict(RunStatus.Running, None, None))
    else WithVerdict(w, runId, Verdict(RunStatus.Running, None, None))
  }

  function Created(w: World, runId: string, r: Run): World {
    w.(runs := w.runs[runId := r], statusLog := Logged(w.statusLog, runId, RunStatus.Pending))
  }

  // ---------------------------------------------------------- what a request does

  /** The statuses a request writes when it is served to the end. */
  function Writes(w: World, runId: string, req: Request): nat {
    match req
    case Start(_, _, _) => 3
    case Resolve(_, _, _) => 2
    case Sign(_, _) => 2
    case ResumeCrashed => 1
    case Cancel => if runId in w.runs && w.runs[runId].status.Running? then 0 else 1
  }

  predicate Wrote(w: World, u: World, runId: string, req: Request, out: Outcome<Run>) {
    var before, after := LogFor(w.statusLog, runId), LogFor(u.statusLog, runId);
    && before <= after && |after| - |before| <= Writes(w, runId, req)
    && (out.Ok? ==> |after| - |before| == Writes(w, runId, req))
  }

  /** Guards passed beyond what a crash-free run would have needed to stand here. */
  function Overrun(w: World, runId: string): int {
    if runId !in w.runs then 0
    else w.runs[runId].stepCount - StepsBefore(StartPc(w, runId)) - (if w.runs[runId].status.Paused? then 1 else 0)
  }

  /** The caller gets the stored row, or the one exception nobody translates; every
      status written on the way was logged; budgets stay as they were granted. */
  predicate Reported(w: World, u: World, runId: string, req: Request, out: Outcome<Run>)
    requires Admits(w, runId, req)
  {
    && runId in u.runs && RunGrows(RowFor(w, runId, req), u.runs[runId])
    && Wrote(w, u, runId, req, out)
    && (out.Ok? ==> out.value == u.runs[runId])
    && (out.Crashed? ==> w.mishaps < u.mishaps)
    && (out.Raised? ==> out.error in {ForeignError, EmptyInput} && u.runs[runId].status.Running?)
  }

  /** Step accounting: an undisturbed call wastes no guard, a disturbed one at most two;
      a call that was not cut short paid a guard or finished the run. */
  predicate Accounted(w: World, u: World, runId: string, req: Request, out: Outcome<Run>)
    requires Admits(w, runId, req) && runId in u.runs
  {
    var r := u.runs[runId];
    && (!r.status.Failed? && !r.status.Cancelled? ==> Overrun(u, runId) <= Overrun(w, runId) + if out.Ok? then 0 else 2)
    && (!out.Crashed? && out != Raised(EmptyInput) ==> IsTerminal(r.status) || RowFor(w, runId, req).stepCount < r.stepCount)
    && (out.Ok? ==> r.status.Paused? || IsTerminal(r.status))
  }

  /** The request was served to its end, and the run failed for this reason. */
  predicate EndsFailed(u: World, runId: string, reason: FailureReason, out: Outcome<Run>) {
    out.Ok? && runId in u.runs && u.runs[runId].status.Failed? && u.runs[runId].failureReason == Some(reason)
  }

  /** Without mishaps, and unflagged, how a request ends is settled beforehand: the run fails
      for an employee nobody knows, for a rejection, or for want of budget, and otherwise it
      reaches its next pause or its end, with one tool call per tool node. */
  predicate Delivered(w: World, u: World, runId: string, req: Request, directory: map<string, Employee>, out: Outcome<Run>)
    requires Admits(w, runId, req) && runId in u.runs
  {
    var from, value, r := StartPc(w, runId), ValueFor(w, runId, InputOf(runId, req)), RowFor(w, runId, req);
    var stop, calls := StopOf(from, value.Some?), u.runs[runId].toolCallCount - r.toolCallCount;
    !r.cancelRequested ==>
      && !u.runs[runId].cancelRequested
      && if IsUnknown(r, from, directory) then
           if r.stepCount < r.maxSteps && r.toolCallCount < r.maxToolCalls then
             EndsFailed(u, runId, ToolFailed, out) && StartPc(u, runId) == 0 && calls == 1 && FetchRefused(w.stepTrace, u.stepTrace, runId)
           else EndsFailed(u, runId, BudgetExhausted, out)
         else if IsRejecting(from, value) then
           EndsFailed(u, runId, if r.stepCount < r.maxSteps then ApprovalRejection else BudgetExhausted, out)
         else if Affords(r, from, stop) then
           && out.Ok? && StartPc(u, runId) == stop && calls == CallsBefore(stop) - CallsBefore(from)
           && (if stop == END then u.runs[runId].status.Completed? else u.runs[runId].pauseReason == Some(GateReason(stop)))
           && u.runs[runId].stepCount == r.stepCount + (stop - from) + (if stop < END then 1 else 0)
         else EndsFailed(u, runId, BudgetExhausted, out)
  }

  /** A gate is passed with the value given to it or saved there, and an answered gate is
      passed unless the run ended. */
  predicate Decided(w: World, u: World, runId: string, req: Request, out: Outcome<Run>)
    requires runId in u.runs
  {
    && (ThreadId(runId) in u.checkpoints ==> ValueUsed(w, u, runId, InputOf(runId, req)))
    && (out.Ok? && ValueFor(w, runId, InputOf(runId, req)).Some? && !IsTerminal(u.runs[runId].status) ==>
          StartPc(w, runId) < StartPc(u, runId))
    && (u.runs[runId].failureReason == Some(ApprovalRejection) ==>
          ValueFor(w, runId, InputOf(runId, req)).Some? && !Approves(ValueFor(w, runId, InputOf(runId, req)).value))
  }

  /** A run that was flagged before the request makes no progress and applies nothing. */
  predicate StoodStill(w: World, u: World, runId: string, out: Outcome<Run>)
    requires runId in u.runs
  {
    && StartPc(u, runId) == StartPc(w, runId)
    && u.sideEffects == w.sideEffects && u.providerEffects == w.providerEffects
    && (out.Raised? ==> out.error.EmptyInput?)
    && (out.Ok? ==> if StartPc(w, runId) == END then u.runs[runId].status.Completed? else u.runs[runId].status.Cancelled?)
  }

  function ReasonFor(e: Error): Option<FailureReason> {
    if e.InvalidPlan? then Some(PlanInvalid) else if e.TransientToolError? || e.PermanentToolError? then Some(ToolFailed) else None
  }

  ghost predicate FailedToPlan(u: World, runId: string, out: Outcome<Run>)
    requires runId in u.runs
  {
    exists e: Error ::
      && PlanningFailed(u.stepTrace, runId, e)
      && if ReasonFor(e).Some? then u.runs[runId].status.Failed? && u.runs[runId].failureReason == ReasonFor(e)
         else out == Raised(e)
  }

  /** The model is asked at most once per request. A failure of that one call, transient or
      not, is one failed planning row, charges nothing, and is the end of the request: the run
      fails for it, unless the exception is from outside the package. */
  ghost predicate Planned(w: World, u: World, runId: string, req: Request, out: Outcome<Run>)
    requires Admits(w, runId, req) && runId in u.runs
  {
    var asked := PlanRows(u, runId) == PlanRows(w, runId) + 1;
    && (asked || PlanRows(u, runId) == PlanRows(w, runId))
    && (StartPc(u, runId) == 1 && asked && !out.Crashed? ==> FailedToPlan(u, runId, out))
    && (StartPc(u, runId) == 1 && u.runs[runId].failureReason in {Some(PlanInvalid), Some(ToolFailed)} ==> asked)
    && (StartPc(w, runId) == 1 && StartPc(u, runId) == 1 ==>
          u.runs[runId].toolCallCount == RowFor(w, runId, req).toolCallCount)
  }

  /** An answer of the model that does not fit the HR record fails the run as an invalid plan,
      unless the process dies, and nothing else does. */
  predicate Taught(w: World, u: World, runId: string, out: Outcome<Run>)
    requires runId in u.runs
  {
    var before, after := AnswersFor(w.answers, runId), AnswersFor(u.answers, runId);
    if ThreadId(runId) !in u.checkpoints then after == before
    else
      var record := StateOf(u, runId).employee;
      && (after == before
          || (|after| == |before| + 1 && after[..|before|] == before && record.Some?
              && (IsAcceptable(after[|before|], record.value) || out.Crashed? || EndsFailed(u, runId, PlanInvalid, out))))
      && (u.runs[runId].failureReason == Some(PlanInvalid) ==>
            after != before && record.Some? && !IsAcceptable(after[|after| - 1], record.value))
  }

  /** A request that drives the graph. */
  ghost predicate Drove(w: World, u: World, runId: string, req: Request, directory: map<string, Employee>, out: Outcome<Run>)
    requires Admits(w, runId, req) && runId in u.runs
  {
    && (out == Raised(EmptyInput) <==> req.ResumeCrashed? && ThreadId(runId) !in w.checkpoints)
    && (out == Raised(EmptyInput) ==> u == w)
    && Accounted(w, u, runId, req, out)
    && Decided(w, u, runId, req, out) && Planned(w, u, runId, req, out)
    && Taught(w, u, runId, out) && (u.runs[runId].status.Cancelled? ==> u.runs[runId].cancelRequested)
    && (ThreadId(runId) in u.checkpoints ==> RecordFetched(w, u, runId, directory))
    && (RowFor(w, runId, req).cancelRequested ==> StoodStill(w, u, runId, out))
    && (u.mishaps == w.mishaps && out != Raised(EmptyInput) ==> Delivered(w, u, runId, req, directory, out))
  }

  /** A run nobody drives is cancelled at once; a driven one is only flagged. */
  predicate CancelDone(w: World, u: World, runId: string, out: Outcome<Run>)
    requires runId in w.runs
  {
    && !out.Raised?
    && u.(mishaps := w.mishaps) ==
         if w.runs[runId].status.Running? then WithFlag(w, runId)
         else WithVerdict(w, runId, Verdict(RunStatus.Cancelled, None, None))
  }

  /** The contract of every request: refused with the store unchanged, or served. `directory`
      is what the HR system knows. */
  ghost predicate Served(w: World, u: World, runId: string, req: Request, directory: map<string, Employee>, out: Outcome<Run>) {
    && RunInv(u, runId) && Evolves(w, u, runId)
    && if !Admits(w, runId, req) then u == w && out == Raised(RefusalOf(w, runId, req))
       else
         && Reported(w, u, runId, req, out)
         && if req.Cancel? then CancelDone(w, u, runId, out)
            else Drove(w, u, runId, req, directory, out)
  }

  lemma RefusingChangesNothing(w: World, runId: string, req: Request, directory: map<string, Employee>)
    requires RunInv(w, runId) && !Admits(w, runId, req)
    ensures Served(w, w, runId, req, directory, Raised(RefusalOf(w, runId, req)))
  {
    EvolvesReflexively(w, runId);
  }

  lemma CreatingKeeps(w: World, runId: string, req: Request)
    requires RunInv(w, runId) && runId !in w.runs && req.Start?
    ensures var u := Created(w, runId, RowFor(w, runId, req));
      RunInv(u, runId) && Evolves(w, u, runId)
  {
    hide EffectState, IsLog, LatestIsPaused, NoGateRows, LabelsFit, AnswersFor, IsOwn, IsOwnKey, Applied, RecordIn;
    SameTablesSameEffects(w, Created(w, runId, RowFor(w, runId, req)), runId);
  }

  /** The store from which a driving request invokes the graph. */
  lemma BeginningKeeps(w: World, runId: string, req: Request)
    requires RunInv(w, runId) && Admits(w, runId, req) && !req.Cancel?
    ensures MayInvoke(Begun(w, runId, req), runId, InputOf(runId, req)) && Evolves(w, Begun(w, runId, req), runId)
  {
    hide RunInv, Evolves;
    if req.ResumeCrashed? {
      EvolvesReflexively(w, runId);
    } else if req.Start? {
      var c := Created(w, runId, RowFor(w, runId, req));
      CreatingKeeps(w, runId, req);
      StartingToRun(c, runId);
      EvolvesTransitively(w, c, Begun(w, runId, req), runId);
    } else {
      StartingToRun(w, runId);
    }
  }

  /** A death before the graph is invoked. */
  lemma DyingBeforeTheGraph(w: World, u: World, runId: string, req: Request, directory: map<string, Employee>)
    requires RunInv(w, runId) && Admits(w, runId, req) && !req.Cancel? && !req.ResumeCrashed? && w.mishaps < u.mishaps
    requires var calm := u.(mishaps := w.mishaps);
      || calm == Begun(w, runId, req)
      || (req.Start? && calm == Created(w, runId, RowFor(w, runId, req)))
    ensures Served(w, u, runId, req, directory, Crashed)
  {
    hide RunInv, Evolves, Drove, Reported;
    var calm := u.(mishaps := w.mishaps);
    if calm == Begun(w, runId, req) {
      BeginningKeeps(w, runId, req);
    } else {
      CreatingKeeps(w, runId, req);
    }
    MishapsDoNotShow(calm, u, runId);
    EvolvesTransitively(w, calm, u, runId);
    DyingEarlyDrives(w, u, runId, req, directory);
  }

  lemma DyingEarlyDrives(w: World, u: World, runId: string, req: Request, directory: map<string, Employee>)
    requires RunInv(w, runId) && Admits(w, runId, req) && !req.Cancel? && !req.ResumeCrashed? && w.mishaps < u.mishaps
    requires var calm := u.(mishaps := w.mishaps);
      || calm == Begun(w, runId, req)
      || (req.Start? && calm == Created(w, runId, RowFor(w, runId, req)))
    ensures Reported(w, u, runId, req, Crashed) && Drove(w, u, runId, req, directory, Crashed)
  {
    hide EffectsFit, StateFits, EffectState, IsLog, LatestIsPaused, LogFits, FlagFits, CountFor, TraceFits, LabelsFit, PlanFits;
    if runId in w.runs {
      PausedStandsAtAGate(w, runId);
    }
  }

  /** What the caller of a driving request gets once the graph has stopped. */
  function ReportOn(u: World, runId: string, advanced: Outcome<()>): Outcome<Run> {
    if !advanced.Ok? then advanced.PropagateFailure()
    else if runId in u.runs then Ok(u.runs[runId]) else Raised(RunNotFound)
  }

  /** The graph ran from the store the request made, and its end was judged. */
  ghost predicate Driven(w: World, v: World, u: World, runId: string, req: Request, directory: map<string, Employee>,
                         ended: Outcome<GraphResult>, advanced: Outcome<()>) {
    && RunInv(w, runId) && Admits(w, runId, req) && !req.Cancel?
    && GraphEnds(Begun(w, runId, req), v, runId, InputOf(runId, req), directory, ended)
    && runId in v.runs && Judged(v, u, runId, ended, advanced)
  }

  lemma PausedStandsAtAGate(w: World, runId: string)
    requires RunInv(w, runId) && runId in w.runs
    ensures w.runs[runId].status.Paused? ==> ThreadId(runId) in w.checkpoints && IsGate(Pc(w, runId))
    ensures ThreadId(runId) in w.checkpoints ==> Pc(w, runId) <= END
  {
  }

  lemma TheRowGrows(w: World, u: World, runId: string)
    requires Evolves(w, u, runId) && runId in w.runs
    ensures runId in u.runs && RunGrows(w.runs[runId], u.runs[runId])
  {
    hide OthersUntouched, Appends, EffectState;
  }

  lemma DrivingWrites(w: World, v: World, u: World, runId: string, req: Request, directory: map<string, Employee>,
                      ended: Outcome<GraphResult>, advanced: Outcome<()>)
    requires Driven(w, v, u, runId, req, directory, ended, advanced)
    ensures Wrote(w, u, runId, req, ReportOn(u, runId, advanced))
    ensures ReportOn(u, runId, advanced).Crashed? ==> w.mishaps < u.mishaps
  {
    hide RunInv, Evolves, HonoursCancel, ValueUsed, SmoothEnd, StopsAt, ModelAsked, AnswerUsed, RecordFetched, AllowedRunTransitions;
    EvolvesKeepsTheStart(Begun(w, runId, req), v, runId);
  }

  lemma DrivingReports(w: World, v: World, u: World, runId: string, req: Request, directory: map<string, Employee>,
                       ended: Outcome<GraphResult>, advanced: Outcome<()>)
    requires Driven(w, v, u, runId, req, directory, ended, advanced)
    ensures runId in u.runs && Reported(w, u, runId, req, ReportOn(u, runId, advanced))
    ensures advanced == Raised(EmptyInput) <==> ended == Raised(EmptyInput)
    ensures ended == Raised(EmptyInput) <==> req.ResumeCrashed? && ThreadId(runId) !in w.checkpoints
    ensures ended == Raised(EmptyInput) ==> u == w
  {
    hide RunInv, Evolves, HonoursCancel, ValueUsed, SmoothEnd, LatestIsPaused, Wrote, ModelAsked, AnswerUsed, RecordFetched, LogFor, Logged,
         AllowedRunTransitions;
    DrivingWrites(w, v, u, runId, req, directory, ended, advanced);
    if runId in w.runs {
      PausedStandsAtAGate(w, runId);
    }
    JudgedKeeps(Begun(w, runId, req), v, u, runId, InputOf(runId, req), directory, ended, advanced);
    TheRowGrows(Begun(w, runId, req), u, runId);
  }

  lemma StoppedInside(w: World, v: World, runId: string, req: Request, directory: map<string, Employee>, ended: Outcome<GraphResult>)
    requires Admits(w, runId, req) && GraphEnds(Begun(w, runId, req), v, runId, InputOf(runId, req), directory, ended)
    ensures ThreadId(runId) in v.checkpoints ==> Pc(v, runId) <= END
  {
  }

  lemma FinishingAccounts(w: World, v: World, u: World, runId: string, req: Request, directory: map<string, Employee>,
                          ended: Outcome<GraphResult>, advanced: Outcome<()>)
    requires Driven(w, v, u, runId, req, directory, ended, advanced) && runId in u.runs && ended == Ok(Finished)
    ensures Accounted(w, u, runId, req, ReportOn(u, runId, advanced))
  {
    hide RunInv, Evolves, HonoursCancel, ValueUsed, SmoothEnd, LatestIsPaused, GraphRaises, AllowedRunTransitions, ModelAsked, AnswerUsed,
         RecordFetched, LogFor, Logged, IsToolError, Affords;
    if runId in w.runs {
      PausedStandsAtAGate(w, runId);
    }
    StoppedInside(w, v, runId, req, directory, ended);
  }

  lemma PausingAccounts(w: World, v: World, u: World, runId: string, req: Request, directory: map<string, Employee>,
                        ended: Outcome<GraphResult>, advanced: Outcome<()>)
    requires Driven(w, v, u, runId, req, directory, ended, advanced) && runId in u.runs && ended.Ok? && ended.value.Interrupted?
    ensures Accounted(w, u, runId, req, ReportOn(u, runId, advanced))
  {
    hide RunInv, Evolves, HonoursCancel, ValueUsed, SmoothEnd, LatestIsPaused, GraphRaises, AllowedRunTransitions, ModelAsked, AnswerUsed,
         RecordFetched, LogFor, Logged, IsToolError, Affords;
    if runId in w.runs {
      PausedStandsAtAGate(w, runId);
    }
    StoppedInside(w, v, runId, req, directory, ended);
  }

  lemma VerdictsAccount(w: World, v: World, u: World, runId: string, req: Request, directory: map<string, Employee>,
                        ended: Outcome<GraphResult>, advanced: Outcome<()>)
    requires Driven(w, v, u, runId, req, directory, ended, advanced) && runId in u.runs && !ended.Ok? && VerdictOn(ended).Some?
    ensures Accounted(w, u, runId, req, ReportOn(u, runId, advanced))
  {
    hide RunInv, Evolves, HonoursCancel, ValueUsed, SmoothEnd, LatestIsPaused, GraphRaises, AllowedRunTransitions, ModelAsked, AnswerUsed,
         RecordFetched, LogFor, Logged;
    if runId in w.runs {
      PausedStandsAtAGate(w, runId);
    }
    StoppedInside(w, v, runId, req, directory, ended);
  }

  lemma LeavingItAccounts(w: World, v: World, u: World, runId: string, req: Request, directory: map<string, Employee>,
                          ended: Outcome<GraphResult>, advanced: Outcome<()>)
    requires Driven(w, v, u, runId, req, directory, ended, advanced) && runId in u.runs && !ended.Ok? && VerdictOn(ended).None?
    ensures Accounted(w, u, runId, req, ReportOn(u, runId, advanced))
  {
    hide RunInv, Evolves, HonoursCancel, ValueUsed, SmoothEnd, LatestIsPaused, AllowedRunTransitions, ModelAsked, AnswerUsed,
         RecordFetched, LogFor, Logged, Affords;
    if runId in w.runs {
      PausedStandsAtAGate(w, runId);
    }
    StoppedInside(w, v, runId, req, directory, ended);
  }

  lemma DrivingAccounts(w: World, v: World, u: World, runId: string, req: Request, directory: map<string, Employee>,
                        ended: Outcome<GraphResult>, advanced: Outcome<()>)
    requires Driven(w, v, u, runId, req, directory, ended, advanced) && runId in u.runs
    ensures Accounted(w, u, runId, req, ReportOn(u, runId, advanced))
  {
    hide Driven, Accounted, Admits, VerdictOn;
    if ended == Ok(Finished) {
      FinishingAccounts(w, v, u, runId, req, directory, ended, advanced);
    } else if ended.Ok? {
      PausingAccounts(w, v, u, runId, req, directory, ended, advanced);
    } else {
      if VerdictOn(ended).Some? {
        VerdictsAccount(w, v, u, runId, req, directory, ended, advanced);
      } else {
        LeavingItAccounts(w, v, u, runId, req, directory, ended, advanced);
      }
    }
  }

  lemma ReachingTheStop(w: World, v: World, u: World, runId: string, req: Request, directory: map<string, Employee>,
                        ended: Outcome<GraphResult>, advanced: Outcome<()>)
    requires Driven(w, v, u, runId, req, directory, ended, advanced) && runId in u.runs
    requires u.mishaps == w.mishaps && ended.Ok?
    ensures Delivered(w, u, runId, req, directory, ReportOn(u, runId, advanced))
  {
    hide RunInv, Evolves, HonoursCancel, ValueUsed, LatestIsPaused, ModelAsked, AnswerUsed, RecordFetched, GraphRaises, LogFor, Logged,
         AllowedRunTransitions, FetchRefused;
    EvolvesKeepsTheStart(Begun(w, runId, req), v, runId);
  }

  lemma FailingForAReason(w: World, v: World, u: World, runId: string, req: Request, directory: map<string, Employee>,
                          ended: Outcome<GraphResult>, advanced: Outcome<()>)
    requires Driven(w, v, u, runId, req, directory, ended, advanced) && runId in u.runs
    requires u.mishaps == w.mishaps && !ended.Ok? && ended != Raised(EmptyInput)
    ensures Delivered(w, u, runId, req, directory, ReportOn(u, runId, advanced))
  {
    hide RunInv, Evolves, HonoursCancel, ValueUsed, StopsAt, LatestIsPaused, ModelAsked, AnswerUsed, RecordFetched, GraphRaises, LogFor, Logged,
         AllowedRunTransitions, FetchRefused;
    EvolvesKeepsTheStart(Begun(w, runId, req), v, runId);
  }

  lemma DrivingDelivers(w: World, v: World, u: World, runId: string, req: Request, directory: map<string, Employee>,
                        ended: Outcome<GraphResult>, advanced: Outcome<()>)
    requires Admits(w, runId, req) && Driven(w, v, u, runId, req, directory, ended, advanced) && runId in u.runs
    requires u.mishaps == w.mishaps && ended != Raised(EmptyInput)
    ensures Delivered(w, u, runId, req, directory, ReportOn(u, runId, advanced))
  {
    hide Driven, Delivered, Admits;
    if ended.Ok? {
      ReachingTheStop(w, v, u, runId, req, directory, ended, advanced);
    } else {
      FailingForAReason(w, v, u, runId, req, directory, ended, advanced);
    }
  }

  lemma OnlyFlaggedRunsAreCancelled(w: World, v: World, u: World, runId: string, req: Request, directory: map<string, Employee>,
                                    ended: Outcome<GraphResult>, advanced: Outcome<()>)
    requires Driven(w, v, u, runId, req, directory, ended, advanced) && runId in u.runs
    ensures u.runs[runId].status.Cancelled? ==> u.runs[runId].cancelRequested
  {
    hide RunInv, Evolves, SmoothEnd, HonoursCancel, ValueUsed, LatestIsPaused, ModelAsked, AnswerUsed, RecordFetched, LogFor, Logged,
         AllowedRunTransitions;
  }

  lemma InvalidPlansWereAnswers(w: World, v: World, u: World, runId: string, req: Request, directory: map<string, Employee>,
                                ended: Outcome<GraphResult>, advanced: Outcome<()>)
    requires Driven(w, v, u, runId, req, directory, ended, advanced) && runId in u.runs
    requires u.runs[runId].failureReason == Some(PlanInvalid) && ThreadId(runId) in u.checkpoints
    ensures ended == Raised(InvalidPlan)
  {
    hide Driven, VerdictOn;
    ReasonsComeFromVerdicts(w, v, u, runId, req, directory, ended, advanced);
    ReasonsComeFromErrors(ended);
  }

  lemma InvalidPlansFail(w: World, v: World, u: World, runId: string, req: Request, directory: map<string, Employee>,
                         ended: Outcome<GraphResult>, advanced: Outcome<()>)
    requires Driven(w, v, u, runId, req, directory, ended, advanced) && runId in u.runs
    requires ended == Raised(InvalidPlan) && !advanced.Crashed?
    ensures EndsFailed(u, runId, PlanInvalid, ReportOn(u, runId, advanced))
  {
    hide RunInv, Evolves, SmoothEnd, HonoursCancel, ValueUsed, LatestIsPaused, ModelAsked, RecordFetched, LogFor, Logged, GraphRaises,
         AllowedRunTransitions, StopsAt, IsAcceptable, AnswerUsed, AnswersFor, Affords;
  }

  lemma AnswersStay(w: World, v: World, u: World, runId: string, req: Request, directory: map<string, Employee>,
                    ended: Outcome<GraphResult>, advanced: Outcome<()>)
    requires Driven(w, v, u, runId, req, directory, ended, advanced) && runId in u.runs
    ensures u.answers == v.answers && u.checkpoints == v.checkpoints
    ensures Begun(w, runId, req).answers == w.answers && Begun(w, runId, req).checkpoints == w.checkpoints
    ensures ended.Crashed? ==> advanced.Crashed?
    ensures ThreadId(runId) !in u.checkpoints ==> AnswersFor(u.answers, runId) == AnswersFor(w.answers, runId)
    ensures ThreadId(runId) in u.checkpoints ==>
      ended == Raised(EmptyInput) || AnswerUsed(Begun(w, runId, req), v, runId, ended)
    ensures ended == Raised(EmptyInput) ==> ThreadId(runId) !in u.checkpoints
  {
    hide RunInv, Evolves, SmoothEnd, HonoursCancel, ValueUsed, LatestIsPaused, ModelAsked, RecordFetched, LogFor, Logged, GraphRaises,
         AllowedRunTransitions, StopsAt, IsAcceptable, AnswerUsed, AnswersFor, Affords;
    if runId in w.runs {
      PausedStandsAtAGate(w, runId);
    }
  }

  lemma DrivingTeaches(w: World, v: World, u: World, runId: string, req: Request, directory: map<string, Employee>,
                       ended: Outcome<GraphResult>, advanced: Outcome<()>)
    requires Admits(w, runId, req) && Driven(w, v, u, runId, req, directory, ended, advanced) && runId in u.runs
    ensures Taught(w, u, runId, ReportOn(u, runId, advanced))
  {
    hide Driven, Admits, IsAcceptable, AnswersFor, EndsFailed, Begun;
    AnswersStay(w, v, u, runId, req, directory, ended, advanced);
    if u.runs[runId].failureReason == Some(PlanInvalid) && ThreadId(runId) in u.checkpoints {
      InvalidPlansWereAnswers(w, v, u, runId, req, directory, ended, advanced);
    }
    if ended == Raised(InvalidPlan) && !advanced.Crashed? {
      InvalidPlansFail(w, v, u, runId, req, directory, ended, advanced);
    }
  }

  lemma DrivingUsesTheValue(w: World, v: World, u: World, runId: string, req: Request, directory: map<string, Employee>,
                            ended: Outcome<GraphResult>, advanced: Outcome<()>)
    requires Driven(w, v, u, runId, req, directory, ended, advanced) && runId in u.runs
    ensures ThreadId(runId) in u.checkpoints ==> ValueUsed(w, u, runId, InputOf(runId, req))
  {
    hide RunInv, Evolves, StopsAt, SmoothEnd, HonoursCancel, ModelAsked, AnswerUsed, RecordFetched, Begun, Judged, Approves;
    AnswersStay(w, v, u, runId, req, directory, ended, advanced);
  }

  lemma DrivingFetches(w: World, v: World, u: World, runId: string, req: Request, directory: map<string, Employee>,
                            ended: Outcome<GraphResult>, advanced: Outcome<()>)
    requires Driven(w, v, u, runId, req, directory, ended, advanced) && runId in u.runs
    ensures ThreadId(runId) in u.checkpoints ==> RecordFetched(w, u, runId, directory)
  {
    hide RunInv, Evolves, StopsAt, SmoothEnd, HonoursCancel, ModelAsked, AnswerUsed, ValueUsed, Begun, Judged;
    AnswersStay(w, v, u, runId, req, directory, ended, advanced);
  }

  lemma DrivingPassesTheGate(w: World, v: World, u: World, runId: string, req: Request, directory: map<string, Employee>,
                             ended: Outcome<GraphResult>, advanced: Outcome<()>)
    requires Driven(w, v, u, runId, req, directory, ended, advanced) && runId in u.runs
    requires ReportOn(u, runId, advanced).Ok? && ValueFor(w, runId, InputOf(runId, req)).Some? && !IsTerminal(u.runs[runId].status)
    ensures StartPc(w, runId) < StartPc(u, runId)
  {
    hide RunInv, Evolves, StopsAt, SmoothEnd, HonoursCancel, ModelAsked, AnswerUsed, ValueUsed, RecordFetched;
    if runId in w.runs {
      PausedStandsAtAGate(w, runId);
    }
  }

  lemma DrivingRejects(w: World, v: World, u: World, runId: string, req: Request, directory: map<string, Employee>,
                       ended: Outcome<GraphResult>, advanced: Outcome<()>)
    requires Driven(w, v, u, runId, req, directory, ended, advanced) && runId in u.runs
    requires u.runs[runId].failureReason == Some(ApprovalRejection)
    ensures var value := ValueFor(w, runId, InputOf(runId, req)); value.Some? && !Approves(value.value)
  {
    hide RunInv, Evolves, StopsAt, SmoothEnd, HonoursCancel, ModelAsked, AnswerUsed, ValueUsed, RecordFetched;
    GraphLeavesTheRunRunning(Begun(w, runId, req), v, runId, InputOf(runId, req), directory, ended);
  }

  lemma PlanningFailuresEndIt(w: World, v: World, u: World, runId: string, req: Request, directory: map<string, Employee>,
                              ended: Outcome<GraphResult>, advanced: Outcome<()>)
    requires Driven(w, v, u, runId, req, directory, ended, advanced) && runId in u.runs
    requires StartPc(u, runId) == 1 && PlanRows(u, runId) == PlanRows(w, runId) + 1 && !ReportOn(u, runId, advanced).Crashed?
    ensures FailedToPlan(u, runId, ReportOn(u, runId, advanced))
  {
    hide RunInv, Evolves, SmoothEnd, HonoursCancel, ValueUsed, RecordFetched, CountFor, PlanningFailed, LatestIsPaused, LogFor, Logged,
         AllowedRunTransitions, StateFits;
    assert PlanningFailed(u.stepTrace, runId, ended.error);
  }

  lemma ReasonsComeFromErrors(ended: Outcome<GraphResult>)
    ensures VerdictOn(ended).Some? && VerdictOn(ended).value.failure in {Some(PlanInvalid), Some(ToolFailed)} ==>
      ended.Raised? && !ended.error.RunCancelled? && !ended.error.BudgetExceeded? && !ended.error.EmptyInput?
    ensures VerdictOn(ended).Some? && VerdictOn(ended).value.failure == Some(PlanInvalid) ==> ended == Raised(InvalidPlan)
  {
  }

  lemma ReasonsComeFromVerdicts(w: World, v: World, u: World, runId: string, req: Request, directory: map<string, Employee>,
                                ended: Outcome<GraphResult>, advanced: Outcome<()>)
    requires Driven(w, v, u, runId, req, directory, ended, advanced) && runId in u.runs
    requires u.runs[runId].failureReason.Some?
    ensures VerdictOn(ended).Some? && VerdictOn(ended).value.failure == u.runs[runId].failureReason
  {
    hide VerdictOn, RunInv, Evolves, SmoothEnd, HonoursCancel, ValueUsed, RecordFetched, ModelAsked, AnswerUsed, StopsAt, LogFor, Logged;
    GraphLeavesTheRunRunning(Begun(w, runId, req), v, runId, InputOf(runId, req), directory, ended);
  }

  lemma FailuresToPlanWereAsked(w: World, v: World, u: World, runId: string, req: Request, directory: map<string, Employee>,
                                ended: Outcome<GraphResult>, advanced: Outcome<()>)
    requires Driven(w, v, u, runId, req, directory, ended, advanced) && runId in u.runs
    requires StartPc(u, runId) == 1 && u.runs[runId].failureReason in {Some(PlanInvalid), Some(ToolFailed)}
    ensures PlanRows(u, runId) == PlanRows(w, runId) + 1
  {
    ReasonsComeFromVerdicts(w, v, u, runId, req, directory, ended, advanced);
    ReasonsComeFromErrors(ended);
    hide VerdictOn, RunInv, Evolves, SmoothEnd, HonoursCancel, ValueUsed, RecordFetched, AnswerUsed, StopsAt, LogFor, Logged, CountFor,
         PlanningFailed, AllowedRunTransitions;
  }

  lemma DrivingAsksOnce(w: World, v: World, u: World, runId: string, req: Request, directory: map<string, Employee>,
                        ended: Outcome<GraphResult>, advanced: Outcome<()>)
    requires Driven(w, v, u, runId, req, directory, ended, advanced) && runId in u.runs
    ensures PlanRows(u, runId) == PlanRows(w, runId) || PlanRows(u, runId) == PlanRows(w, runId) + 1
    ensures StartPc(w, runId) == 1 && StartPc(u, runId) == 1 ==>
      u.runs[runId].toolCallCount == RowFor(w, runId, req).toolCallCount
  {
    hide RunInv, Evolves, SmoothEnd, HonoursCancel, ValueUsed, RecordFetched, CountFor, PlanningFailed, LatestIsPaused, LogFor, Logged,
         AllowedRunTransitions, StateFits, StopsAt;
  }

  lemma DrivingPlans(w: World, v: World, u: World, runId: string, req: Request, directory: map<string, Employee>,
                     ended: Outcome<GraphResult>, advanced: Outcome<()>)
    requires Admits(w, runId, req) && Driven(w, v, u, runId, req, directory, ended, advanced) && runId in u.runs
    ensures Planned(w, u, runId, req, ReportOn(u, runId, advanced))
  {
    hide Driven, FailedToPlan, Admits, RunInv, PlanRows;
    DrivingAsksOnce(w, v, u, runId, req, directory, ended, advanced);
    if StartPc(u, runId) == 1 && u.runs[runId].failureReason in {Some(PlanInvalid), Some(ToolFailed)} {
      FailuresToPlanWereAsked(w, v, u, runId, req, directory, ended, advanced);
    }
    if StartPc(u, runId) == 1 && PlanRows(u, runId) == PlanRows(w, runId) + 1 && !ReportOn(u, runId, advanced).Crashed? {
      PlanningFailuresEndIt(w, v, u, runId, req, directory, ended, advanced);
    }
  }

  lemma DrivingDecides(w: World, v: World, u: World, runId: string, req: Request, directory: map<string, Employee>,
                       ended: Outcome<GraphResult>, advanced: Outcome<()>)
    requires Driven(w, v, u, runId, req, directory, ended, advanced) && runId in u.runs
    ensures Decided(w, u, runId, req, ReportOn(u, runId, advanced))
  {
    hide Driven, ValueUsed, RunInv, GraphEnds;
    DrivingUsesTheValue(w, v, u, runId, req, directory, ended, advanced);
    if ReportOn(u, runId, advanced).Ok? && ValueFor(w, runId, InputOf(runId, req)).Some? && !IsTerminal(u.runs[runId].status) {
      DrivingPassesTheGate(w, v, u, runId, req, directory, ended, advanced);
    }
    if u.runs[runId].failureReason == Some(ApprovalRejection) {
      DrivingRejects(w, v, u, runId, req, directory, ended, advanced);
    }
  }

  lemma DrivingStandsStill(w: World, v: World, u: World, runId: string, req: Request, directory: map<string, Employee>,
                           ended: Outcome<GraphResult>, advanced: Outcome<()>)
    requires Driven(w, v, u, runId, req, directory, ended, advanced) && runId in u.runs
    requires RowFor(w, runId, req).cancelRequested
    ensures StoodStill(w, u, runId, ReportOn(u, runId, advanced))
  {
    hide RunInv, Evolves, SmoothEnd, ValueUsed, LatestIsPaused;
  }

  lemma DrivingDrives(w: World, v: World, u: World, runId: string, req: Request, directory: map<string, Employee>,
                      ended: Outcome<GraphResult>, advanced: Outcome<()>)
    requires Admits(w, runId, req) && Driven(w, v, u, runId, req, directory, ended, advanced) && runId in u.runs
    ensures Drove(w, u, runId, req, directory, ReportOn(u, runId, advanced))
  {
    hide Driven, RunInv, Evolves, Accounted, Reported, Delivered, Decided, StoodStill, Planned, Taught, RecordFetched, Admits;
    DrivingReports(w, v, u, runId, req, directory, ended, advanced);
    DrivingFetches(w, v, u, runId, req, directory, ended, advanced);
    DrivingTeaches(w, v, u, runId, req, directory, ended, advanced);
    OnlyFlaggedRunsAreCancelled(w, v, u, runId, req, directory, ended, advanced);
    DrivingPlans(w, v, u, runId, req, directory, ended, advanced);
    DrivingDecides(w, v, u, runId, req, directory, ended, advanced);
    if RowFor(w, runId, req).cancelRequested {
      DrivingStandsStill(w, v, u, runId, req, directory, ended, advanced);
    }
    DrivingAccounts(w, v, u, runId, req, directory, ended, advanced);
    if u.mishaps == w.mishaps && ended != Raised(EmptyInput) {
      DrivingDelivers(w, v, u, runId, req, directory, ended, advanced);
    }
  }

  lemma DrivingServes(w: World, v: World, u: World, runId: string, req: Request, directory: map<string, Employee>,
                      ended: Outcome<GraphResult>, advanced: Outcome<()>)
    requires Driven(w, v, u, runId, req, directory, ended, advanced)
    ensures Served(w, u, runId, req, directory, ReportOn(u, runId, advanced))
  {
    hide RunInv, Evolves, Reported, Drove, GraphEnds, Judged;
    BeginningKeeps(w, runId, req);
    JudgedKeeps(Begun(w, runId, req), v, u, runId, InputOf(runId, req), directory, ended, advanced);
    EvolvesTransitively(w, Begun(w, runId, req), u, runId);
    DrivingReports(w, v, u, runId, req, directory, ended, advanced);
    DrivingDrives(w, v, u, runId, req, directory, ended, advanced);
  }

  lemma CancellingKeeps(w: World, runId: string)
    requires RunInv(w, runId) && runId in w.runs && (w.runs[runId].status.Pending? || w.runs[runId].status.Paused?)
    ensures RunInv(WithVerdict(w, runId, Verdict(RunStatus.Cancelled, None, None)), runId)
    ensures Evolves(w, WithVerdict(w, runId, Verdict(RunStatus.Cancelled, None, None)), runId)
  {
    hide EffectState, EffectsFit, StateFits, IsLog, LatestIsPaused, LogFits, FlagFits, Evolves, TraceFits, LabelsFit, PlanFits;
    var u := WithVerdict(w, runId, Verdict(RunStatus.Cancelled, None, None));
    WritingAStatus(w, runId, Verdict(RunStatus.Cancelled, None, None));
    SameTablesSameEffects(w, u, runId);
    if ThreadId(runId) in w.checkpoints {
      SameTablesSameFit(w, u, runId, Pc(w, runId), StateOf(w, runId));
    }
  }

  lemma FlaggingReports(w: World, u: World, runId: string, out: Outcome<Run>)
    requires IsRunningIn(w, runId) && u == WithFlag(w, runId).(mishaps := u.mishaps) && !out.Raised?
    requires u.mishaps == w.mishaps + if out.Crashed? then 1 else 0
    requires out.Ok? ==> runId in u.runs && out.value == u.runs[runId]
    ensures Reported(w, u, runId, Cancel, out)
  {
    hide PositionIn;
  }

  predicate IsRunningIn(w: World, runId: string) {
    runId in w.runs && w.runs[runId].status.Running?
  }

  lemma CancellingReports(w: World, u: World, runId: string, out: Outcome<Run>)
    requires Admits(w, runId, Cancel) && !IsRunningIn(w, runId) && !out.Raised?
    requires u == WithVerdict(w, runId, Verdict(RunStatus.Cancelled, None, None)).(mishaps := u.mishaps)
    requires u.mishaps == w.mishaps + if out.Crashed? then 1 else 0
    requires out.Ok? ==> runId in u.runs && out.value == u.runs[runId]
    ensures Reported(w, u, runId, Cancel, out)
  {
  }

  lemma OnlyMishapsPassed(u: World, x: World, mishaps: nat)
    requires u.(mishaps := mishaps) == x
    ensures u == x.(mishaps := u.mishaps)
  {
  }

  /** A cancellation touches the run's row alone. */
  lemma CancellingServes(w: World, u: World, runId: string, directory: map<string, Employee>, out: Outcome<Run>)
    requires RunInv(w, runId) && Admits(w, runId, Cancel) && CancelDone(w, u, runId, out)
    requires u.mishaps == w.mishaps + (if out.Crashed? then 1 else 0) && (out.Ok? ==> runId in u.runs && out.value == u.runs[runId])
    ensures Served(w, u, runId, Cancel, directory, out)
  {
    hide RunInv, Evolves, EffectState, Reported, Drove, WithFlag, WithVerdict;
    var calm := u.(mishaps := w.mishaps);
    OnlyMishapsPassed(u, calm, w.mishaps);
    if w.runs[runId].status.Running? {
      FlaggingKeeps(w, runId);
      FlaggingReports(w, u, runId, out);
    } else {
      CancellingKeeps(w, runId);
      CancellingReports(w, u, runId, out);
    }
    MishapsDoNotShow(calm, u, runId);
    EvolvesTransitively(w, calm, u, runId);
  }

  class Service {
    const runs: RunRepository
    const graph: CompiledGraph
    const db: Store := runs.db

    constructor (runs: RunRepository, graph: CompiledGraph)
      ensures this.runs == runs && this.graph == graph
    {
      this.runs, this.graph := runs, graph;
    }

    ghost predicate Wired()
      reads graph.workflow.executor.registry
    {
      graph.Wired() && graph.db == db
    }

    /** What the HR system answers from. */
    ghost function Directory(): map<string, Employee>
      requires Wired()
      reads graph.workflow.executor.registry
    {
      graph.workflow.Directory()
    }

    /** Invokes the graph once and turns the way it ended into a status, here and
        nowhere else. The ghost results are the store when the graph stopped, and how. */
    method Advance(runId: string, input: GraphInput) returns (out: Outcome<()>, ghost v: World, ghost ended: Outcome<GraphResult>)
      requires Wired() && MayInvoke(db.W(), runId, input)
      modifies db
      ensures GraphEnds(old(db.W()), v, runId, input, Directory(), ended)
      ensures Judged(v, db.W(), runId, ended, out)
    {
      hide RunInv, Evolves, GraphEnds, MayInvoke, IsLinear, AllowedRunTransitions, ToolsWired;
      ghost var w := db.W();
      MayInvokeMeansRunning(w, runId, input);
      ghost var directory := Directory();
      var result := graph.Invoke(runId, input);
      v, ended := db.W(), result;
      var verdict := VerdictOn(result);
      GraphLeavesTheRunRunning(w, v, runId, input, directory, ended);
      if verdict.None? {
        return result.PropagateFailure(), v, ended;
      }
      VerdictsFit(w, v, runId, input, directory, ended);
      var written := runs.SetStatus(runId, verdict.value.status, verdict.value.pause, verdict.value.failure);
      return if written.Ok? then Ok(()) else Crashed, v, ended;
    }

    /** Creates a run and drives it to its first stop. `runId` is the fresh identifier
        the original draws itself. */
    method StartRun(runId: string, employeeId: string, maxSteps: int, maxToolCalls: int) returns (out: Outcome<Run>)
      requires Wired() && RunInv(db.W(), runId)
      modifies db
      ensures Served(old(db.W()), db.W(), runId, Start(employeeId, maxSteps, maxToolCalls), Directory(), out)
    {
      hide RunInv, Served, Driven, IsLinear, ToolsWired, MayInvoke, GraphEnds, Judged;
      ghost var w, req := db.W(), Start(employeeId, maxSteps, maxToolCalls);
      var run := runs.Create(runId, employeeId, maxSteps, maxToolCalls);
      if run.Raised? {
        RefusingChangesNothing(w, runId, req, Directory());
        return run;
      }
      if run.Crashed? {
        DyingBeforeTheGraph(w, db.W(), runId, req, Directory());
        return Crashed;
      }
      var running := runs.SetStatus(runId, RunStatus.Running, None, None);
      if !running.Ok? {
        DyingBeforeTheGraph(w, db.W(), runId, req, Directory());
        return Crashed;
      }
      out := Drive(w, runId, req, Fresh(InitialState(runId, employeeId)));
    }

    /** The common end of every driving request: one advance, then the row as it is now. */
    method Drive(ghost w: World, runId: string, ghost req: Request, input: GraphInput) returns (out: Outcome<Run>)
      requires Wired() && RunInv(w, runId) && Admits(w, runId, req) && !req.Cancel?
      requires db.W() == Begun(w, runId, req) && input == InputOf(runId, req)
      modifies db
      ensures Served(w, db.W(), runId, req, Directory(), out)
    {
      hide RunInv, Served, Judged, IsLinear, ToolsWired, MayInvoke, GraphEnds;
      BeginningKeeps(w, runId, req);
      MayInvokeMeansRunning(db.W(), runId, input);
      ghost var directory := Directory();
      var advanced, v, ended := Advance(runId, input);
      GraphLeavesTheRunRunning(Begun(w, runId, req), v, runId, input, directory, ended);
      DrivingServes(w, v, db.W(), runId, req, Directory(), ended, advanced);
      if !advanced.Ok? {
        return advanced.PropagateFailure();
      }
      out := runs.Get(runId);
    }

    method Approve(runId: string, approver: string, note: Option<string>) returns (out: Outcome<Run>)
      requires Wired() && RunInv(db.W(), runId)
      modifies db
      ensures Served(old(db.W()), db.W(), runId, Resolve(true, approver, note), Directory(), out)
    {
      out := ResolveApproval(runId, true, approver, note);
    }

    method Reject(runId: string, approver: string, note: Option<string>) returns (out: Outcome<Run>)
      requires Wired() && RunInv(db.W(), runId)
      modifies db
      ensures Served(old(db.W()), db.W(), runId, Resolve(false, approver, note), Directory(), out)
    {
      out := ResolveApproval(runId, false, approver, note);
    }

    method ResolveApproval(runId: string, approved: bool, approver: string, note: Option<string>) returns (out: Outcome<Run>)
      requires Wired() && RunInv(db.W(), runId)
      modifies db
      ensures Served(old(db.W()), db.W(), runId, Resolve(approved, approver, note), Directory(), out)
    {
      out := Unpause(runId, HrApproval, Resolve(approved, approver, note), Decision(approved, approver, note));
    }

    /** `signedAt` is given; the original falls back on the clock. */
    method SubmitSignedDocument(runId: string, documentId: string, signedAt: string) returns (out: Outcome<Run>)
      requires Wired() && RunInv(db.W(), runId)
      modifies db
      ensures Served(old(db.W()), db.W(), runId, Sign(documentId, signedAt), Directory(), out)
    {
      out := Unpause(runId, SignedDocument, Sign(documentId, signedAt), Signature(documentId, signedAt));
    }

    /** Refuses an operation unless the run is paused for exactly `reason`. */
    method RequirePausedFor(run: Run, reason: PauseReason) returns (out: Outcome<()>)
      ensures out == if run.status.Paused? && run.pauseReason == Some(reason) then Ok(()) else Raised(InvalidRunOperation)
    {
      if !run.status.Paused? || run.pauseReason != Some(reason) {
        return Raised(InvalidRunOperation);
      }
      return Ok(());
    }

    /** Feeds a value into the pause a run is in. */
    method Unpause(runId: string, reason: PauseReason, ghost req: Request, value: ResumeValue) returns (out: Outcome<Run>)
      requires Wired() && RunInv(db.W(), runId)
      requires (req.Resolve? && reason.HrApproval?) || (req.Sign? && reason.SignedDocument?)
      requires InputOf(runId, req) == ResumeWith(value)
      modifies db
      ensures Served(old(db.W()), db.W(), runId, req, Directory(), out)
    {
      hide RunInv, Served, Driven, IsLinear, ToolsWired, MayInvoke, GraphEnds, Judged;
      ghost var w := db.W();
      var run := runs.Get(runId);
      if !run.Ok? {
        RefusingChangesNothing(w, runId, req, Directory());
        return run;
      }
      var fits := RequirePausedFor(run.value, reason);
      if !fits.Ok? {
        RefusingChangesNothing(w, runId, req, Directory());
        return fits.PropagateFailure();
      }
      var running := runs.SetStatus(runId, RunStatus.Running, None, None);
      if !running.Ok? {
        DyingBeforeTheGraph(w, db.W(), runId, req, Directory());
        return Crashed;
      }
      out := Drive(w, runId, req, ResumeWith(value));
    }

    /** Continues a run that stopped in the middle of a step: the graph is invoked with
        no input at all. */
    method ResumeRun(runId: string) returns (out: Outcome<Run>)
      requires Wired() && RunInv(db.W(), runId)
      modifies db
      ensures Served(old(db.W()), db.W(), runId, ResumeCrashed, Directory(), out)
    {
      hide RunInv, Served, Driven, IsLinear, ToolsWired, MayInvoke, GraphEnds, Judged;
      ghost var w := db.W();
      var run := runs.Get(runId);
      if !run.Ok? {
        RefusingChangesNothing(w, runId, ResumeCrashed, Directory());
        return run;
      }
      if !run.value.status.Running? {
        RefusingChangesNothing(w, runId, ResumeCrashed, Directory());
        return Raised(InvalidRunOperation);
      }
      out := Drive(w, runId, ResumeCrashed, Continue);
    }

    method CancelRun(runId: string) returns (out: Outcome<Run>)
      requires Wired() && RunInv(db.W(), runId)
      modifies db
      ensures Served(old(db.W()), db.W(), runId, Cancel, Directory(), out)
    {
      hide RunInv, Served, IsLinear, ToolsWired;
      ghost var w := db.W();
      var run := runs.Get(runId);
      if !run.Ok? {
        RefusingChangesNothing(w, runId, Cancel, Directory());
        return run;
      }
      if IsTerminal(run.value.status) {
        RefusingChangesNothing(w, runId, Cancel, Directory());
        return Raised(InvalidRunOperation);
      }
      if run.value.status.Pending? || run.value.status.Paused? {
        out := runs.SetStatus(runId, RunStatus.Cancelled, None, None);
      } else {
        out := runs.RequestCancel(runId);
      }
      CancellingServes(w, db.W(), runId, Directory(), out);
    }
  }
}
