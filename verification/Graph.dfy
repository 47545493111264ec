/** The linear wiring, and the little of LangGraph the orchestrator relies on: a
    checkpoint that advances when a node returns, `interrupt` that pauses or consumes a
    resume value, and `invoke` with a fresh state, a resume value, or nothing. */
module Graph {
  import opened Domain
  import opened Durable
  import opened Executor
  import opened Invariant
  import opened LedgerProtocol
  import opened Nodes
  import opened Plan
  import opened Tools
  import opened TraceTable

  datatype Vertex = StartVertex | NodeVertex(step: StepName) | EndVertex

  const WORKFLOW: seq<StepName> :=
    [FetchEmployee, PlanDeprovisioning, AwaitHrApproval, RevokeAccess, SendExitPaperwork, AwaitSignedDocument, Finalize]

  /** The vertex in front of which a checkpoint at `pc` stands. */
  function VertexAt(pc: nat): Vertex {
    if pc < |WORKFLOW| then NodeVertex(WORKFLOW[pc]) else EndVertex
  }

  function PcOf(v: Vertex): nat {
    match v
    case StartVertex => 0
    case EndVertex => END
    case NodeVertex(step) =>
      match step
      case FetchEmployee => 0
      case PlanDeprovisioning => 1
      case AwaitHrApproval => 2
      case RevokeAccess => 3
      case SendExitPaperwork => 4
      case AwaitSignedDocument => 5
      case Finalize => 6
  }

  lemma PositionsAgree(pc: nat)
    requires pc <= END
    ensures PcOf(VertexAt(pc)) == pc
    ensures pc < END ==> NodeAt(pc) == WORKFLOW[pc]
  {
  }

  /** Exactly one edge leaves START and every node, and it leads to the next node of the
      table; the approval gate is the only way into the revocation. */
  predicate IsLinear(edges: map<Vertex, Vertex>) {
    && edges.Keys == {StartVertex} + (set step | step in WORKFLOW :: NodeVertex(step))
    && edges[StartVertex] == VertexAt(0)
    && forall i :: 0 <= i < |WORKFLOW| ==> edges[NodeVertex(WORKFLOW[i])] == VertexAt(i + 1)
  }

  class StateGraph {
    var nodes: set<StepName>
    var edges: map<Vertex, Vertex>

    constructor ()
      ensures nodes == {} && edges == map[]
    {
      nodes, edges := {}, map[];
    }

    method AddNode(step: StepName)
      modifies this`nodes
      ensures nodes == old(nodes) + {step}
    {
      nodes := nodes + {step};
    }

    method AddEdge(from: Vertex, to: Vertex)
      modifies this`edges
      ensures edges == old(edges)[from := to]
    {
      edges := edges[from := to];
    }
  }

  /** Adds the nodes of the table in order, then chains them. */
  method BuildGraph() returns (g: StateGraph)
    ensures fresh(g) && IsLinear(g.edges) && g.nodes == set step | step in WORKFLOW
  {
    g := new StateGraph();
    for i := 0 to |WORKFLOW|
      invariant g.nodes == set step | step in WORKFLOW[..i]
      invariant g.edges == map[] && fresh(g)
    {
      g.AddNode(WORKFLOW[i]);
    }
    var previous := StartVertex;
    for i := 0 to |WORKFLOW|
      invariant fresh(g) && g.nodes == set step | step in WORKFLOW
      invariant previous == if i == 0 then StartVertex else NodeVertex(WORKFLOW[i - 1])
      invariant previous !in g.edges
      invariant forall step :: NodeVertex(step) in g.edges ==> PcOf(NodeVertex(step)) + 1 < i
      invariant i > 0 ==> StartVertex in g.edges && g.edges[StartVertex] == VertexAt(0)
      invariant forall k :: 0 <= k < i - 1 ==>
        NodeVertex(WORKFLOW[k]) in g.edges && g.edges[NodeVertex(WORKFLOW[k])] == VertexAt(k + 1)
      invariant EndVertex !in g.edges
    {
      g.AddEdge(previous, NodeVertex(WORKFLOW[i]));
      previous := NodeVertex(WORKFLOW[i]);
    }
    g.AddEdge(previous, EndVertex);
    ChainsAreLinear(g.edges);
  }

  lemma ChainsAreLinear(edges: map<Vertex, Vertex>)
    requires StartVertex in edges && edges[StartVertex] == VertexAt(0) && EndVertex !in edges
    requires forall k :: 0 <= k < |WORKFLOW| ==>
      NodeVertex(WORKFLOW[k]) in edges && edges[NodeVertex(WORKFLOW[k])] == VertexAt(k + 1)
    ensures IsLinear(edges)
  {
    forall v
      ensures v in edges.Keys <==> v in {StartVertex} + (set step | step in WORKFLOW :: NodeVertex(step))
    {
      match v
      case StartVertex =>
      case EndVertex =>
      case NodeVertex(step) => assert WORKFLOW[PcOf(v)] == step;
    }
  }

  // ------------------------------------------------------------------ invoking

  datatype GraphInput = Fresh(initial: GraphState) | ResumeWith(value: ResumeValue) | Continue

  datatype GraphResult = Finished | Interrupted(reason: PauseReason)

  function InitialState(runId: string, employeeId: string): GraphState {
    GraphState(runId, employeeId, None, None, "", None, None, None, None, None)
  }

  /** What the service guarantees before it invokes the graph. */
  ghost predicate MayInvoke(w: World, runId: string, input: GraphInput) {
    && RunInv(w, runId) && runId in w.runs && w.runs[runId].status.Running?
    && match input
       case Fresh(s) => ThreadId(runId) !in w.checkpoints && s == InitialState(runId, w.runs[runId].employeeId)
       case ResumeWith(_) => AtRaisedGate(w, runId)
       case Continue => true
  }

  /** The gate at which the run was paused a moment ago. */
  ghost predicate AtRaisedGate(w: World, runId: string) {
    && InFlight(w, runId) && IsGate(Pc(w, runId)) && w.checkpoints[ThreadId(runId)].resume.None?
    && StepsBefore(Pc(w, runId)) + 1 <= w.runs[runId].stepCount
  }

  function StartPc(w: World, runId: string): nat {
    if ThreadId(runId) in w.checkpoints then Pc(w, runId) else 0
  }

  function CallsBefore(pc: nat): nat {
    match pc
    case 0 => 0 case 1 => 1 case 2 => 1 case 3 => 1 case 4 => 2 case 5 => 3 case 6 => 3
    case _ => 4
  }

  /** Where an invocation stops when nothing goes wrong: the next gate it has no value for. */
  function StopOf(pc: nat, hasValue: bool): nat {
    if pc < 2 || (pc == 2 && !hasValue) then 2
    else if pc < 5 || (pc == 5 && !hasValue) then 5
    else END
  }

  /** The budgets cover the way from `pc` to `stop`, as far as it takes any. */
  predicate Affords(r: Run, pc: nat, stop: nat) {
    var steps, calls := (stop - pc) + (if stop < END then 1 else 0), CallsBefore(stop) - CallsBefore(pc);
    && (steps > 0 ==> r.stepCount + steps <= r.maxSteps)
    && (calls > 0 ==> r.toolCallCount + calls <= r.maxToolCalls)
  }

  /** A decision that is not an approval waits at the first gate. */
  predicate IsRejecting(pc: nat, value: Option<ResumeValue>) {
    pc == 2 && value.Some? && !Approves(value.value)
  }

  predicate IsUnknown(r: Run, pc: nat, directory: map<string, Employee>) {
    pc == 0 && r.employeeId !in directory
  }

  /** The value a gate at the starting checkpoint would find. */
  function ValueFor(w: World, runId: string, input: GraphInput): Option<ResumeValue> {
    if input.ResumeWith? then Some(input.value)
    else if ThreadId(runId) in w.checkpoints then w.checkpoints[ThreadId(runId)].resume
    else None
  }

  predicate GraphRaises(u: World, runId: string, e: Error)
    requires runId in u.runs && ThreadId(runId) in u.checkpoints
  {
    match e
    case RunCancelled => u.runs[runId].cancelRequested
    case ApprovalRejected => Pc(u, runId) == 2
    case InvalidPlan => Pc(u, runId) == 1
    case BudgetExceeded => OutOfBudget(u.runs[runId])
    case TransientToolError | PermanentToolError | ForeignError => !IsGate(Pc(u, runId))
    case _ => false
  }

  /** Where an invocation may stop, and how many guards it passed on the way. */
  ghost predicate StopsAt(w: World, u: World, runId: string, out: Outcome<GraphResult>)
    requires runId in w.runs && runId in u.runs && ThreadId(runId) in u.checkpoints
  {
    var from, pc := StartPc(w, runId), Pc(u, runId);
    var steps := u.runs[runId].stepCount - w.runs[runId].stepCount;
    && from <= pc
    && match out
       case Ok(Finished) => pc == END && steps == pc - from
       case Ok(Interrupted(reason)) =>
         && IsGate(pc) && reason == GateReason(pc) && steps == pc - from + 1
         && u.checkpoints[ThreadId(runId)].resume.None?
         && StepsBefore(pc) + 1 <= u.runs[runId].stepCount && LatestIsPaused(u.stepTrace, runId, NodeAt(pc))
       case Crashed => pc - from <= steps <= pc - from + 1
       case Raised(e) =>
         && pc - from <= steps <= pc - from + 1
         && pc < END && GraphRaises(u, runId, e)
         && (!e.RunCancelled? && !e.BudgetExceeded? ==> steps > 0)
  }

  /** A run already flagged passes no guard: no effect, no progress, only the end. */
  ghost predicate HonoursCancel(w: World, u: World, runId: string, out: Outcome<GraphResult>)
    requires runId in w.runs && ThreadId(runId) in u.checkpoints
  {
    w.runs[runId].cancelRequested ==>
      && Pc(u, runId) == StartPc(w, runId)
      && u.sideEffects == w.sideEffects && u.providerEffects == w.providerEffects
      && (out == Raised(RunCancelled) || out.Crashed? || (out == Ok(Finished) && StartPc(w, runId) == END))
  }

  /** A gate is passed only from the checkpoint in front of it and only with a value,
      which is recorded as it was given; the first gate lets nothing but an approval
      through. A saved value is the one given, and waits in front of its gate. */
  predicate ValueUsed(w: World, u: World, runId: string, input: GraphInput)
    requires ThreadId(runId) in u.checkpoints
  {
    var from, value, pc := StartPc(w, runId), ValueFor(w, runId, input), Pc(u, runId);
    && (u.checkpoints[ThreadId(runId)].resume.Some? ==> pc == from && u.checkpoints[ThreadId(runId)].resume == value)
    && (from <= 2 < pc ==> from == 2 && value.Some? && Approves(value.value) && StateOf(u, runId).approval == value)
    && (from <= 5 < pc ==> from == 5 && value.Some? && StateOf(u, runId).signedDocument == value)
  }

  /** The HR record in the checkpoint was there before, or is the directory's for the run's
      own employee. */
  predicate RecordFetched(w: World, u: World, runId: string, directory: map<string, Employee>)
    requires ThreadId(runId) in u.checkpoints
  {
    StateOf(u, runId).employee.Some? ==>
      || (ThreadId(runId) in w.checkpoints && StateOf(w, runId).employee.Some?)
      || (StateOf(u, runId).employeeId in directory
          && StateOf(u, runId).employee == Some(directory[StateOf(u, runId).employeeId]))
  }

  /** An invocation asks the model at most once. If it stops at the planning node after
      asking, that is why it stopped: the one new planning row failed with the error raised,
      and nothing was charged for it. */
  predicate ModelAsked(w: World, u: World, runId: string, out: Outcome<GraphResult>)
    requires runId in w.runs && runId in u.runs && ThreadId(runId) in u.checkpoints
  {
    var asked := PlanRows(u, runId) == PlanRows(w, runId) + 1;
    && (asked || PlanRows(u, runId) == PlanRows(w, runId))
    && (Pc(u, runId) == 1 && out.Raised? && !out.error.RunCancelled? && !out.error.BudgetExceeded? ==> asked)
    && (Pc(u, runId) == 1 && asked && !out.Crashed? ==>
          && out.Raised? && !out.error.RunCancelled? && !out.error.BudgetExceeded?
          && PlanningFailed(u.stepTrace, runId, out.error))
    && (Pc(u, runId) == 1 && StartPc(w, runId) == 1 ==> u.runs[runId].toolCallCount == w.runs[runId].toolCallCount)
  }

  /** What the model answered to an invocation, at most once, decides: an answer that does not
      fit the HR record is an invalid plan, and nothing else is. */
  predicate AnswerUsed(w: World, u: World, runId: string, out: Outcome<GraphResult>)
    requires ThreadId(runId) in u.checkpoints
  {
    var before, after := AnswersFor(w.answers, runId), AnswersFor(u.answers, runId);
    var record := StateOf(u, runId).employee;
    && (after == before
        || (|after| == |before| + 1 && after[..|before|] == before && record.Some?
            && (IsAcceptable(after[|before|], record.value) || out.Crashed? || out == Raised(InvalidPlan))))
    && (out == Raised(InvalidPlan) ==> after != before && record.Some? && !IsAcceptable(after[|after| - 1], record.value))
  }

  /** The contract of one `graph.invoke`. */
  ghost predicate GraphEnds(w: World, u: World, runId: string, input: GraphInput, directory: map<string, Employee>, out: Outcome<GraphResult>) {
    && RunInv(u, runId) && Evolves(w, u, runId)
    && runId in w.runs && runId in u.runs && u.runs[runId].status.Running? && u.statusLog == w.statusLog
    && (out == Raised(EmptyInput) <==> ThreadId(runId) !in w.checkpoints && !input.Fresh?)
    && (out == Raised(EmptyInput) ==> u == w)
    && (out.Crashed? ==> w.mishaps < u.mishaps)
    && (out != Raised(EmptyInput) ==>
          && ThreadId(runId) in u.checkpoints
          && StopsAt(w, u, runId, out) && HonoursCancel(w, u, runId, out) && ValueUsed(w, u, runId, input)
          && RecordFetched(w, u, runId, directory) && ModelAsked(w, u, runId, out) && AnswerUsed(w, u, runId, out)
          && (out.Ok? && ValueFor(w, runId, input).Some? ==> Pc(u, runId) > StartPc(w, runId))
          && (out == Raised(ApprovalRejected) ==>
                ValueFor(w, runId, input).Some? && !Approves(ValueFor(w, runId, input).value))
          && (u.mishaps == w.mishaps ==> SmoothEnd(w, u, runId, input, directory, out)))
  }

  /** Without mishaps, and unflagged, where an invocation ends is settled beforehand: refused
      for an employee nobody knows, by a rejection, or for want of budget, and otherwise at
      its stop, having called one tool per tool node. */
  ghost predicate SmoothEnd(w: World, u: World, runId: string, input: GraphInput, directory: map<string, Employee>, out: Outcome<GraphResult>)
    requires runId in w.runs && runId in u.runs && ThreadId(runId) in u.checkpoints
  {
    var from, value, r := StartPc(w, runId), ValueFor(w, runId, input), w.runs[runId];
    var stop, calls := StopOf(from, value.Some?), u.runs[runId].toolCallCount - r.toolCallCount;
    !r.cancelRequested ==>
      && !u.runs[runId].cancelRequested
      && if IsUnknown(r, from, directory) then
           if r.stepCount < r.maxSteps && HasBudget(r) then
             out == Raised(PermanentToolError) && Pc(u, runId) == 0 && calls == 1 && FetchRefused(w.stepTrace, u.stepTrace, runId)
           else out == Raised(BudgetExceeded)
         else if IsRejecting(from, value) then
           out == Raised(if r.stepCount < r.maxSteps then ApprovalRejected else BudgetExceeded)
         else if Affords(r, from, stop) then
           && out == Ok(if stop == END then Finished else Interrupted(GateReason(stop)))
           && Pc(u, runId) == stop && calls == CallsBefore(stop) - CallsBefore(from)
         else out == Raised(BudgetExceeded)
  }

  // -------------------------------------------------------------- one step of it

  /** The store after a checkpoint commit. */
  function WithCheckpoint(w: World, runId: string, cp: Checkpoint): World {
    w.(checkpoints := w.checkpoints[ThreadId(runId) := cp])
  }

  /** A node that returned may advance its checkpoint. */
  lemma AdvancingKeepsTheInvariant(w: World, u: World, runId: string, pc: nat, s: GraphState, s': GraphState)
    requires AtNode(w, runId, pc, s) && Works(w, u, runId) && Returns(w, u, runId, pc, s, s')
    requires IsGate(pc) ==> StepsBefore(pc) + 1 <= w.runs[runId].stepCount
    ensures RunInv(WithCheckpoint(u, runId, Checkpoint(pc + 1, s', None)), runId)
    ensures InFlight(WithCheckpoint(u, runId, Checkpoint(pc + 1, s', None)), runId)
  {
    hide EffectState, EffectsFit, StateFits, IsLog, LatestIsPaused, Evolves, IsRunPath, TraceFits, LabelsFit, PlanFits;
    var v := WithCheckpoint(u, runId, Checkpoint(pc + 1, s', None));
    SameTablesSameEffects(u, v, runId);
    SameTablesSameFit(u, v, runId, pc + 1, s');
  }

  lemma AdvancingEvolves(w: World, u: World, runId: string, pc: nat, s: GraphState, s': GraphState)
    requires AtNode(w, runId, pc, s) && Works(w, u, runId) && Returns(w, u, runId, pc, s, s')
    ensures Evolves(w, WithCheckpoint(u, runId, Checkpoint(pc + 1, s', None)), runId)
  {
    hide EffectState, EffectsFit, StateFits, StateGrows, IsLog, LatestIsPaused, RunInv, Appends, IsOwn, IsOwnKey, RunGrows, TraceFits, PlanFits,
         AnswersFor, LogFor, CallsFor, Applied, RecordIn;
    SameTablesSameEffects(u, WithCheckpoint(u, runId, Checkpoint(pc + 1, s', None)), runId);
  }

  /** An invocation that started in `w` stands at a checkpoint in `u`, holding `given`. */
  ghost predicate Underway(w: World, u: World, runId: string, input: GraphInput, directory: map<string, Employee>, given: Option<ResumeValue>) {
    && RunInv(u, runId) && Evolves(w, u, runId) && InFlight(u, runId)
    && runId in w.runs && w.runs[runId].status.Running? && u.statusLog == w.statusLog
    && (ThreadId(runId) !in w.checkpoints ==> input.Fresh?)
    && StandsAt(w, u, runId, input, given) && ValueUsed(w, u, runId, input)
    && RecordFetched(w, u, runId, directory) && ModelAskedSoFar(w, u, runId) && AnsweredSoFar(w, u, runId)
    && (w.runs[runId].cancelRequested ==>
          && Pc(u, runId) == StartPc(w, runId) && u.runs[runId].cancelRequested
          && u.sideEffects == w.sideEffects && u.providerEffects == w.providerEffects)
    && (u.mishaps == w.mishaps ==> SmoothSoFar(w, u, runId, input, directory, given))
  }

  predicate ModelAskedSoFar(w: World, u: World, runId: string)
    requires runId in w.runs && runId in u.runs && ThreadId(runId) in u.checkpoints
  {
    && PlanRows(w, runId) <= PlanRows(u, runId) <= PlanRows(w, runId) + 1
    && (Pc(u, runId) <= 1 || StartPc(w, runId) > 1 ==> PlanRows(u, runId) == PlanRows(w, runId))
    && (Pc(u, runId) == 1 && StartPc(w, runId) == 1 ==> u.runs[runId].toolCallCount == w.runs[runId].toolCallCount)
  }

  predicate AnsweredSoFar(w: World, u: World, runId: string)
    requires ThreadId(runId) in u.checkpoints
  {
    var before, after := AnswersFor(w.answers, runId), AnswersFor(u.answers, runId);
    && (Pc(u, runId) <= 1 ==> after == before)
    && (after == before
        || (|after| == |before| + 1 && after[..|before|] == before && StateOf(u, runId).employee.Some?
            && IsAcceptable(after[|before|], StateOf(u, runId).employee.value)))
  }

  predicate StandsAt(w: World, u: World, runId: string, input: GraphInput, given: Option<ResumeValue>)
    requires runId in w.runs && runId in u.runs && ThreadId(runId) in u.checkpoints
  {
    var from, pc := StartPc(w, runId), Pc(u, runId);
    && from <= pc
    && u.runs[runId].stepCount == w.runs[runId].stepCount + (pc - from)
    && (given.Some? ==> pc == from && IsGate(pc) && StepsBefore(pc) + 1 <= u.runs[runId].stepCount)
    && (pc > from ==> u.checkpoints[ThreadId(runId)].resume.None?)
    && (pc == from ==> Available(u, runId, given) == ValueFor(w, runId, input) && u.stepTrace == w.stepTrace)
  }

  ghost predicate SmoothSoFar(w: World, u: World, runId: string, input: GraphInput, directory: map<string, Employee>, given: Option<ResumeValue>)
    requires runId in w.runs && runId in u.runs && ThreadId(runId) in u.checkpoints
  {
    var from, value, pc := StartPc(w, runId), ValueFor(w, runId, input), Pc(u, runId);
    !w.runs[runId].cancelRequested ==>
      && pc <= StopOf(from, value.Some?) && !u.runs[runId].cancelRequested
      && u.runs[runId].toolCallCount == w.runs[runId].toolCallCount + CallsBefore(pc) - CallsBefore(from)
      && (IsUnknown(w.runs[runId], from, directory) ==> pc == 0)
  }

  /** The value the gate at the current checkpoint would take. */
  function Available(u: World, runId: string, given: Option<ResumeValue>): Option<ResumeValue>
    requires ThreadId(runId) in u.checkpoints
  {
    if given.Some? then given else u.checkpoints[ThreadId(runId)].resume
  }

  /** How the graph hands on what ended its last node. */
  function Passes(out: Outcome<GraphState>): Outcome<GraphResult>
    requires !out.Ok?
  {
    if out.Raised? && out.error.GraphInterrupt? then Ok(Interrupted(out.error.reason)) else out.PropagateFailure()
  }

  lemma NodeEndsTheInvocation(w: World, u: World, v: World, runId: string, input: GraphInput, directory: map<string, Employee>,
                              given: Option<ResumeValue>, out: Outcome<GraphState>)
    requires Underway(w, u, runId, input, directory, given) && Pc(u, runId) < END
    requires NodeEnds(u, v, runId, Pc(u, runId), StateOf(u, runId), Available(u, runId, given), directory, out)
    requires !out.Ok?
    ensures GraphEnds(w, v, runId, input, directory, Passes(out))
  {
    hide RunInv, Evolves, StopsAt, SmoothEnd, SmoothSoFar, Returns, EndsRegularly, CountFor, IsAcceptable, UndisturbedEnd, ModelAsked, AnswerUsed,
         AsksTheModel, Answered, ModelAskedSoFar, AnsweredSoFar;
    EvolvesTransitively(w, u, v, runId);
    EvolvesKeepsTheStart(w, u, runId);
    EvolvesKeepsTheStart(u, v, runId);
    StoppingPlace(w, u, v, runId, input, directory, given, out);
    TheModelAtTheStop(w, u, v, runId, input, directory, given, out);
    if v.mishaps == w.mishaps {
      SmoothStop(w, u, v, runId, input, directory, given, out);
    }
  }

  lemma TheModelAtTheStop(w: World, u: World, v: World, runId: string, input: GraphInput, directory: map<string, Employee>,
                          given: Option<ResumeValue>, out: Outcome<GraphState>)
    requires Underway(w, u, runId, input, directory, given) && Pc(u, runId) < END
    requires NodeEnds(u, v, runId, Pc(u, runId), StateOf(u, runId), Available(u, runId, given), directory, out)
    requires !out.Ok?
    ensures ThreadId(runId) in v.checkpoints && runId in v.runs
    ensures ModelAsked(w, v, runId, Passes(out)) && AnswerUsed(w, v, runId, Passes(out))
  {
    hide RunInv, Evolves, SmoothSoFar, UndisturbedEnd, CountFor, IsAcceptable, StandsAt, ValueUsed, RecordFetched, PlanningFailed;
  }

  lemma EvolvesKeepsTheStart(u: World, v: World, runId: string)
    requires Evolves(u, v, runId)
    ensures u.mishaps <= v.mishaps
  {
  }

  lemma StepsTaken(w: World, runId: string)
    requires RunInv(w, runId) && InFlight(w, runId)
    ensures StepsBefore(Pc(w, runId)) <= w.runs[runId].stepCount
  {
  }

  lemma StoppingPlace(w: World, u: World, v: World, runId: string, input: GraphInput, directory: map<string, Employee>,
                      given: Option<ResumeValue>, out: Outcome<GraphState>)
    requires Underway(w, u, runId, input, directory, given) && Pc(u, runId) < END
    requires NodeEnds(u, v, runId, Pc(u, runId), StateOf(u, runId), Available(u, runId, given), directory, out)
    requires !out.Ok?
    ensures StopsAt(w, v, runId, Passes(out))
  {
    hide Started, LatestIsPaused, SmoothSoFar, EndsRegularly, OthersUntouched, EffectState, IsLog, Appends, LabelsFit, UndisturbedEnd, Answered;
    StepsTaken(u, runId);
  }

  lemma BudgetsHold(w: World, u: World, runId: string)
    requires RunInv(u, runId) && Evolves(w, u, runId) && runId in w.runs
    ensures runId in u.runs && RunGrows(w.runs[runId], u.runs[runId])
    ensures u.runs[runId].stepCount <= Max(0, u.runs[runId].maxSteps) && u.runs[runId].toolCallCount <= Max(0, u.runs[runId].maxToolCalls)
  {
    hide OthersUntouched, EffectState, Appends, Started, NotStarted;
  }

  lemma SmoothStop(w: World, u: World, v: World, runId: string, input: GraphInput, directory: map<string, Employee>,
                   given: Option<ResumeValue>, out: Outcome<GraphState>)
    requires Underway(w, u, runId, input, directory, given) && Pc(u, runId) < END
    requires NodeEnds(u, v, runId, Pc(u, runId), StateOf(u, runId), Available(u, runId, given), directory, out)
    requires !out.Ok? && v.mishaps == w.mishaps
    ensures SmoothEnd(w, v, runId, input, directory, Passes(out))
  {
    hide RunInv, Evolves, RaisesFor, Returns, AsksTheModel, Answered, FetchRefused, CountFor;
    UnderwayIsAtANode(w, u, runId, input, directory, given);
    BudgetsHold(w, u, runId);
    EvolvesKeepsTheStart(w, u, runId);
    EvolvesKeepsTheStart(u, v, runId);
  }

  /** A run that holds a value for its gate has been at that gate before. */
  lemma HoldingAValueTookAStep(w: World, u: World, runId: string, input: GraphInput, directory: map<string, Employee>, given: Option<ResumeValue>)
    requires Underway(w, u, runId, input, directory, given)
    ensures Available(u, runId, given).Some? ==> StepsBefore(Pc(u, runId)) + 1 <= u.runs[runId].stepCount
  {
    hide EffectsFit, StateFits, LatestIsPaused, Evolves, SmoothSoFar;
  }

  lemma NodeMovesTheInvocation(w: World, u: World, v: World, runId: string, input: GraphInput, directory: map<string, Employee>,
                               given: Option<ResumeValue>, s': GraphState)
    requires Underway(w, u, runId, input, directory, given) && Pc(u, runId) < END
    requires NodeEnds(u, v, runId, Pc(u, runId), StateOf(u, runId), Available(u, runId, given), directory, Ok(s'))
    ensures Underway(w, WithCheckpoint(v, runId, Checkpoint(Pc(u, runId) + 1, s', None)), runId, input, directory, None)
  {
    hide EffectState, IsLog, LatestIsPaused, Appends, EffectsFit, Matches, OthersUntouched, SmoothSoFar, RunInv, Evolves,
         UndisturbedEnd, RaisesFor, CountFor, TraceFits, PlanFits, IsAcceptable, AsksTheModel, Answered, ModelAskedSoFar, AnsweredSoFar,
         RecordFetched, ValueUsed, StateGrows, StateFits;
    var next := WithCheckpoint(v, runId, Checkpoint(Pc(u, runId) + 1, s', None));
    UnderwayIsAtANode(w, u, runId, input, directory, given);
    HoldingAValueTookAStep(w, u, runId, input, directory, given);
    AdvancingKeepsTheInvariant(u, v, runId, Pc(u, runId), StateOf(u, runId), s');
    AdvancingEvolves(u, v, runId, Pc(u, runId), StateOf(u, runId), s');
    EvolvesTransitively(w, u, next, runId);
    TheModelOnTheWay(w, u, v, runId, input, directory, given, s');
    TheValueOnTheWay(w, u, v, runId, input, directory, given, s');
    TheRecordOnTheWay(w, u, v, runId, input, directory, given, s');
    if v.mishaps == w.mishaps {
      SmoothMove(w, u, v, runId, input, directory, given, s');
    }
  }

  lemma TheModelOnTheWay(w: World, u: World, v: World, runId: string, input: GraphInput, directory: map<string, Employee>,
                         given: Option<ResumeValue>, s': GraphState)
    requires Underway(w, u, runId, input, directory, given) && Pc(u, runId) < END
    requires NodeEnds(u, v, runId, Pc(u, runId), StateOf(u, runId), Available(u, runId, given), directory, Ok(s'))
    ensures var next := WithCheckpoint(v, runId, Checkpoint(Pc(u, runId) + 1, s', None));
      runId in next.runs && ModelAskedSoFar(w, next, runId) && AnsweredSoFar(w, next, runId)
  {
    hide RunInv, Evolves, SmoothSoFar, UndisturbedEnd, RaisesFor, CountFor, TraceFits, PlanFits, EffectsFit, StateFits, IsAcceptable,
         ValueUsed, RecordFetched;
  }

  lemma TheValueOnTheWay(w: World, u: World, v: World, runId: string, input: GraphInput, directory: map<string, Employee>,
                         given: Option<ResumeValue>, s': GraphState)
    requires Underway(w, u, runId, input, directory, given) && Pc(u, runId) < END
    requires NodeEnds(u, v, runId, Pc(u, runId), StateOf(u, runId), Available(u, runId, given), directory, Ok(s'))
    ensures ValueUsed(w, WithCheckpoint(v, runId, Checkpoint(Pc(u, runId) + 1, s', None)), runId, input)
  {
    hide RunInv, Evolves, SmoothSoFar, UndisturbedEnd, RaisesFor, CountFor, TraceFits, PlanFits, EffectsFit, Matches, IsAcceptable,
         RecordFetched, AsksTheModel, Answered, ModelAskedSoFar, AnsweredSoFar;
  }

  lemma TheRecordOnTheWay(w: World, u: World, v: World, runId: string, input: GraphInput, directory: map<string, Employee>,
                          given: Option<ResumeValue>, s': GraphState)
    requires Underway(w, u, runId, input, directory, given) && Pc(u, runId) < END
    requires NodeEnds(u, v, runId, Pc(u, runId), StateOf(u, runId), Available(u, runId, given), directory, Ok(s'))
    ensures RecordFetched(w, WithCheckpoint(v, runId, Checkpoint(Pc(u, runId) + 1, s', None)), runId, directory)
  {
    hide RunInv, Evolves, SmoothSoFar, UndisturbedEnd, RaisesFor, CountFor, TraceFits, PlanFits, EffectsFit, StateFits, IsAcceptable,
         StandsAt, ValueUsed, AsksTheModel, Answered, ModelAskedSoFar, AnsweredSoFar;
    UnderwayIsAtANode(w, u, runId, input, directory, given);
  }

  lemma SmoothMove(w: World, u: World, v: World, runId: string, input: GraphInput, directory: map<string, Employee>,
                   given: Option<ResumeValue>, s': GraphState)
    requires Underway(w, u, runId, input, directory, given) && Pc(u, runId) < END
    requires NodeEnds(u, v, runId, Pc(u, runId), StateOf(u, runId), Available(u, runId, given), directory, Ok(s'))
    requires v.mishaps == w.mishaps
    ensures SmoothSoFar(w, WithCheckpoint(v, runId, Checkpoint(Pc(u, runId) + 1, s', None)), runId, input, directory, None)
  {
    hide RunInv, Evolves, RaisesFor, Returns, AsksTheModel, Answered, FetchRefused, CountFor;
    UnderwayIsAtANode(w, u, runId, input, directory, given);
    BudgetsHold(w, u, runId);
    EvolvesKeepsTheStart(w, u, runId);
    EvolvesKeepsTheStart(u, v, runId);
  }

  // --------------------------------------------------------- the compiled graph

  /** Committing the input is the first thing an invocation does. A resume value may be
      saved with the checkpoint (it then survives a crash) or only held in memory. */
  ghost predicate InputTaken(w: World, u: World, runId: string, input: GraphInput, given: Option<ResumeValue>) {
    match input
    case Fresh(s) => u.(mishaps := w.mishaps) == WithCheckpoint(w, runId, Checkpoint(0, s, None)) && given.None?
    case Continue => u.(mishaps := w.mishaps) == w && ThreadId(runId) in w.checkpoints && given.None?
    case ResumeWith(v) =>
      && ThreadId(runId) in w.checkpoints && given == Some(v)
      && var cp := w.checkpoints[ThreadId(runId)];
         || u.(mishaps := w.mishaps) == w
         || u.(mishaps := w.mishaps) == WithCheckpoint(w, runId, cp.(resume := Some(v)))
  }

  /** Deaths and other mishaps leave no mark on a run by themselves. */
  lemma MishapsDoNotShow(u: World, v: World, runId: string)
    requires RunInv(u, runId) && v == u.(mishaps := v.mishaps) && u.mishaps <= v.mishaps
    ensures RunInv(v, runId) && Evolves(u, v, runId)
  {
    hide EffectState, IsLog, LatestIsPaused, ReceiptOf, IsRunPath, IsSettledWith, RowMeans, Matches, TraceFits, LabelsFit, PlanFits;
    SameTablesSameEffects(u, v, runId);
  }

  lemma FreshInput(w: World, u: World, runId: string, s: GraphState)
    requires MayInvoke(w, runId, Fresh(s)) && u == WithCheckpoint(w, runId, Checkpoint(0, s, None))
    ensures RunInv(u, runId) && Evolves(w, u, runId) && InFlight(u, runId)
  {
    hide EffectState, Receipt, ArgsOf, IsLog, LatestIsPaused, LatestIs, NoRows, Matches, Approves, RowMeans, IsSettledWith, LabelsFit;
    SameTablesSameEffects(w, u, runId);
  }

  lemma SavedInput(w: World, u: World, runId: string, v: ResumeValue)
    requires MayInvoke(w, runId, ResumeWith(v))
    requires u == WithCheckpoint(w, runId, w.checkpoints[ThreadId(runId)].(resume := Some(v)))
    ensures RunInv(u, runId) && Evolves(w, u, runId) && InFlight(u, runId)
  {
    hide EffectState, Receipt, ArgsOf, IsLog, LatestIsPaused, Matches, Approves, RowMeans, IsSettledWith, TraceFits, LabelsFit, PlanFits;
    SameTablesSameEffects(w, u, runId);
  }

  lemma TakingInputStarts(w: World, u: World, runId: string, input: GraphInput, directory: map<string, Employee>, given: Option<ResumeValue>)
    requires MayInvoke(w, runId, input) && InputTaken(w, u, runId, input, given) && w.mishaps <= u.mishaps
    ensures u.mishaps == w.mishaps ==> Underway(w, u, runId, input, directory, given)
    ensures w.mishaps < u.mishaps ==> GraphEnds(w, u, runId, input, directory, Crashed)
  {
    var calm := u.(mishaps := w.mishaps);
    assert RunInv(calm, runId) && Evolves(w, calm, runId) && InFlight(calm, runId) by {
      hide EffectState, IsLog, LatestIsPaused;
      match input
      case Fresh(s) => FreshInput(w, calm, runId, s);
      case Continue => EvolvesReflexively(w, runId);
      case ResumeWith(v) =>
        if calm == w {
          EvolvesReflexively(w, runId);
        } else {
          SavedInput(w, calm, runId, v);
        }
    }
    InputPosition(w, calm, runId, input, directory, given);
    if w.mishaps < u.mishaps {
      DyingAtACheckpoint(w, calm, u, runId, input, directory, given);
    }
  }

  lemma InputStands(w: World, u: World, runId: string, input: GraphInput, directory: map<string, Employee>, given: Option<ResumeValue>)
    requires MayInvoke(w, runId, input) && InputTaken(w, u, runId, input, given) && u.mishaps == w.mishaps
    requires RunInv(u, runId) && Evolves(w, u, runId) && InFlight(u, runId)
    ensures StandsAt(w, u, runId, input, given) && ValueUsed(w, u, runId, input)
  {
    hide Evolves, EffectsFit, StateFits, IsLog, LatestIsPaused, EffectState, WithinBudgets, ReasonsFit, FailureFits, LogFits, FlagFits, CountFor,
         TraceFits, LabelsFit, PlanFits;
  }

  lemma InputAsksNothing(w: World, u: World, runId: string, input: GraphInput, directory: map<string, Employee>, given: Option<ResumeValue>)
    requires MayInvoke(w, runId, input) && InputTaken(w, u, runId, input, given) && u.mishaps == w.mishaps
    requires RunInv(u, runId) && Evolves(w, u, runId) && InFlight(u, runId)
    ensures AnsweredSoFar(w, u, runId)
  {
    hide Evolves, EffectsFit, StateFits, IsLog, LatestIsPaused, EffectState, WithinBudgets, ReasonsFit, FailureFits, LogFits, FlagFits, CountFor,
         TraceFits, LabelsFit, PlanFits;
  }

  lemma InputIsNew(w: World, u: World, runId: string, input: GraphInput, directory: map<string, Employee>, given: Option<ResumeValue>)
    requires MayInvoke(w, runId, input) && InputTaken(w, u, runId, input, given) && u.mishaps == w.mishaps
    requires RunInv(u, runId) && Evolves(w, u, runId) && InFlight(u, runId)
    ensures RecordFetched(w, u, runId, directory) && ModelAskedSoFar(w, u, runId)
  {
    hide Evolves, EffectsFit, StateFits, IsLog, LatestIsPaused, EffectState, WithinBudgets, ReasonsFit, FailureFits, LogFits, FlagFits, CountFor,
         TraceFits, LabelsFit, PlanFits;
  }

  lemma InputIsSmooth(w: World, u: World, runId: string, input: GraphInput, directory: map<string, Employee>, given: Option<ResumeValue>)
    requires MayInvoke(w, runId, input) && InputTaken(w, u, runId, input, given) && u.mishaps == w.mishaps
    requires RunInv(u, runId) && Evolves(w, u, runId) && InFlight(u, runId)
    ensures SmoothSoFar(w, u, runId, input, directory, given)
  {
    hide Evolves, EffectsFit, StateFits, IsLog, LatestIsPaused, EffectState, WithinBudgets, ReasonsFit, FailureFits, LogFits, FlagFits, CountFor,
         TraceFits, LabelsFit, PlanFits;
  }

  lemma InputPosition(w: World, u: World, runId: string, input: GraphInput, directory: map<string, Employee>, given: Option<ResumeValue>)
    requires MayInvoke(w, runId, input) && InputTaken(w, u, runId, input, given) && u.mishaps == w.mishaps
    requires RunInv(u, runId) && Evolves(w, u, runId) && InFlight(u, runId)
    ensures Underway(w, u, runId, input, directory, given)
  {
    hide Evolves, RunInv, StandsAt, ValueUsed, RecordFetched, ModelAskedSoFar, SmoothSoFar, AnsweredSoFar;
    InputStands(w, u, runId, input, directory, given);
    InputAsksNothing(w, u, runId, input, directory, given);
    InputIsNew(w, u, runId, input, directory, given);
    InputIsSmooth(w, u, runId, input, directory, given);
  }

  lemma EndIsReached(w: World, u: World, runId: string, input: GraphInput, directory: map<string, Employee>, given: Option<ResumeValue>)
    requires Underway(w, u, runId, input, directory, given) && Pc(u, runId) == END
    ensures GraphEnds(w, u, runId, input, directory, Ok(Finished))
  {
    hide Evolves, EffectsFit, StateFits, IsLog, LatestIsPaused, TraceFits, LabelsFit, PlanFits, IsAcceptable, FetchRefused, CountFor,
         LogFits, FlagFits;
    BudgetsHold(w, u, runId);
  }

  /** A death right after a checkpoint commit. */
  lemma DyingAtACheckpoint(w: World, u: World, v: World, runId: string, input: GraphInput, directory: map<string, Employee>, given: Option<ResumeValue>)
    requires Underway(w, u, runId, input, directory, given)
    requires v == u.(mishaps := v.mishaps) && u.mishaps < v.mishaps
    ensures GraphEnds(w, v, runId, input, directory, Crashed)
  {
    hide RunInv, Evolves, SmoothSoFar;
    EvolvesKeepsTheStart(w, u, runId);
    MishapsDoNotShow(u, v, runId);
    EvolvesTransitively(w, u, v, runId);
  }

  lemma NodesStandAtTheirCheckpoint(w: World, s: GraphState, pc: nat)
    requires AtNode(w, s.runId, pc, s)
    ensures PositionIn(w.checkpoints, s.runId) == pc
  {
  }

  lemma AtMostTheLastNode(w: World, s: GraphState, pc: nat)
    requires AtNode(w, s.runId, pc, s)
    ensures pc <= 6
  {
  }

  lemma OnlyGatesLookAtTheValue(w: World, u: World, runId: string, pc: nat, s: GraphState, resume: Option<ResumeValue>,
                                directory: map<string, Employee>, out: Outcome<GraphState>)
    requires NodeEnds(w, u, runId, pc, s, None, directory, out) && !IsGate(pc)
    ensures NodeEnds(w, u, runId, pc, s, resume, directory, out)
  {
    hide Works, Returns;
  }

  lemma FlaggingKeeps(w: World, runId: string)
    requires RunInv(w, runId) && runId in w.runs
    ensures RunInv(WithFlag(w, runId), runId) && Evolves(w, WithFlag(w, runId), runId)
  {
    hide EffectState, IsLog, LatestIsPaused, Receipt, ArgsOf, IsSettledWith, RowMeans, Matches, IsRunPath, TraceFits, LabelsFit, PlanFits;
    SameTablesSameEffects(w, WithFlag(w, runId), runId);
  }

  /** A flag raised while the node was in flight: the node does not look at it again, and
      has ended as it would have. */
  lemma AFlagMayArrive(w: World, u: World, v: World, runId: string, pc: nat, s: GraphState, resume: Option<ResumeValue>,
                       directory: map<string, Employee>, out: Outcome<GraphState>)
    requires NodeEnds(w, u, runId, pc, s, resume, directory, out) && runId in u.runs && u.mishaps < v.mishaps
    requires PositionIn(w.checkpoints, runId) == pc
    requires v == WithFlag(u, runId).(mishaps := v.mishaps)
    ensures NodeEnds(w, v, runId, pc, s, resume, directory, out)
  {
    hide RunInv, Evolves, EffectState, LatestIsPaused, CountFor, TraceFits, PlanFits, StateFits, StateGrows, IsAcceptable, PlanningFailed,
         FetchRefused;
    var calm := v.(mishaps := u.mishaps);
    assert calm == WithFlag(u, runId);
    FlaggingKeeps(u, runId);
    MishapsDoNotShow(calm, v, runId);
    EvolvesTransitively(u, calm, v, runId);
    EvolvesTransitively(w, u, v, runId);
    SameTablesSameEffects(u, v, runId);
    EvolvesKeepsTheStart(w, u, runId);
  }

  lemma NodesHonourTheFlag(u: World, v: World, runId: string, pc: nat, s: GraphState, resume: Option<ResumeValue>,
                           directory: map<string, Employee>, out: Outcome<GraphState>)
    requires NodeEnds(u, v, runId, pc, s, resume, directory, out) && runId in u.runs && u.runs[runId].cancelRequested
    ensures out == Raised(RunCancelled) && v.sideEffects == u.sideEffects && v.providerEffects == u.providerEffects
  {
  }

  lemma NodesKeepTheCheckpoint(u: World, v: World, runId: string, pc: nat, s: GraphState, resume: Option<ResumeValue>,
                               directory: map<string, Employee>, out: Outcome<GraphState>)
    requires NodeEnds(u, v, runId, pc, s, resume, directory, out)
    ensures v.checkpoints == u.checkpoints
  {
  }

  class CompiledGraph {
    const workflow: Workflow
    const edges: map<Vertex, Vertex>
    const db: Store := workflow.db

    constructor (workflow: Workflow, edges: map<Vertex, Vertex>)
      ensures this.workflow == workflow && this.edges == edges
    {
      this.workflow, this.edges := workflow, edges;
    }

    ghost predicate Wired()
      reads workflow.executor.registry
    {
      workflow.Wired() && IsLinear(edges)
    }

    /** The node at a checkpoint; the run may be flagged while it is in flight. */
    method InFlightNode(pc: nat, s: GraphState, resume: Option<ResumeValue>) returns (out: Outcome<GraphState>)
      requires Wired() && AtNode(db.W(), s.runId, pc, s)
      modifies db
      ensures NodeEnds(old(db.W()), db.W(), s.runId, pc, s, resume, workflow.Directory(), out)
    {
      hide NodeEnds, AtNode, ToolsWired, IsLinear, RunInv;
      ghost var w, directory := db.W(), workflow.Directory();
      NodesStandAtTheirCheckpoint(w, s, pc);
      out := RunNode(pc, s, resume);
      ghost var u := db.W();
      db.CancelFromElsewhere(s.runId);
      if db.W() != u {
        AFlagMayArrive(w, u, db.W(), s.runId, pc, s, resume, directory, out);
      }
    }

    /** The node function of a position. */
    method RunNode(pc: nat, s: GraphState, resume: Option<ResumeValue>) returns (out: Outcome<GraphState>)
      requires Wired() && AtNode(db.W(), s.runId, pc, s)
      modifies db
      ensures NodeEnds(old(db.W()), db.W(), s.runId, pc, s, resume, workflow.Directory(), out)
    {
      hide NodeEnds, AtNode, ToolsWired, IsLinear, RunInv;
      ghost var w := db.W();
      match pc {
        case 0 => out := workflow.FetchEmployee(s);
        case 1 => out := workflow.PlanDeprovisioning(s);
        case 2 => out := workflow.AwaitHrApproval(s, resume);
        case 3 => out := workflow.RevokeAccess(s);
        case 4 => out := workflow.SendExitPaperwork(s);
        case 5 => out := workflow.AwaitSignedDocument(s, resume);
        case _ =>
          AtMostTheLastNode(w, s, pc);
          out := workflow.Finalize(s);
      }
      if !IsGate(pc) {
        OnlyGatesLookAtTheValue(w, db.W(), s.runId, pc, s, resume, workflow.Directory(), out);
      }
    }

    method TakeInput(runId: string, input: GraphInput) returns (out: Outcome<Option<ResumeValue>>)
      requires MayInvoke(db.W(), runId, input)
      modifies db`checkpoints, db`mishaps
      ensures out.Raised? ==> out == Raised(EmptyInput) && db.W() == old(db.W())
      ensures out.Raised? <==> ThreadId(runId) !in old(db.checkpoints) && !input.Fresh?
      ensures out.Ok? ==> InputTaken(old(db.W()), db.W(), runId, input, out.value)
      ensures out.Crashed? ==> InputTaken(old(db.W()), db.W(), runId, input, if input.ResumeWith? then Some(input.value) else None)
      ensures db.mishaps == old(db.mishaps) + if out.Crashed? then 1 else 0
    {
      hide RunInv;
      if !input.Fresh? && ThreadId(runId) !in db.checkpoints {
        return Raised(EmptyInput);
      }
      match input {
        case Fresh(s) =>
          db.checkpoints := db.checkpoints[ThreadId(runId) := Checkpoint(0, s, None)];
        case ResumeWith(v) =>
          var saved: bool := *;
          if saved {
            db.checkpoints := db.checkpoints[ThreadId(runId) := db.checkpoints[ThreadId(runId)].(resume := Some(v))];
          }
        case Continue =>
      }
      var dead := db.Dies();
      if dead {
        return Crashed;
      }
      return Ok(if input.ResumeWith? then Some(input.value) else None);
    }

    /** One node of an invocation and, when it returned, its checkpoint. `None`: go on.
        A flag raised while the node before was in flight stops the invocation here. */
    method Step(runId: string, given: Option<ResumeValue>, ghost w: World, ghost input: GraphInput, ghost directory: map<string, Employee>)
      returns (stop: Option<Outcome<GraphResult>>)
      requires Wired() && Underway(w, db.W(), runId, input, directory, given)
      requires ThreadId(runId) in db.checkpoints && db.checkpoints[ThreadId(runId)].pc < END
      requires runId in w.runs && directory == workflow.Directory()
      modifies db
      ensures stop.Some? ==> GraphEnds(w, db.W(), runId, input, directory, stop.value)
      ensures runId in old(db.runs) && old(db.runs)[runId].cancelRequested ==>
        && stop == Some(Raised(RunCancelled)) && db.checkpoints == old(db.checkpoints)
        && db.sideEffects == old(db.sideEffects) && db.providerEffects == old(db.providerEffects)
      ensures stop.None? ==> Underway(w, db.W(), runId, input, directory, None)
      ensures ThreadId(runId) in db.checkpoints
      ensures stop.None? ==> db.checkpoints[ThreadId(runId)].pc == old(db.checkpoints)[ThreadId(runId)].pc + 1
    {
      hide RunInv, Evolves, NodeEnds, IsLinear, Underway, GraphEnds, AtNode, ToolsWired;
      UnderwayIsAtANode(w, db.W(), runId, input, directory, given);
      ghost var u := db.W();
      var cp := db.checkpoints[ThreadId(runId)];
      var node := InFlightNode(cp.pc, cp.state, if given.Some? then given else cp.resume);
      if runId in u.runs && u.runs[runId].cancelRequested {
        NodesHonourTheFlag(u, db.W(), runId, cp.pc, cp.state, if given.Some? then given else cp.resume, directory, node);
      }
      NodesKeepTheCheckpoint(u, db.W(), runId, cp.pc, cp.state, if given.Some? then given else cp.resume, directory, node);
      if !node.Ok? {
        NodeEndsTheInvocation(w, u, db.W(), runId, input, directory, given, node);
        return Some(Passes(node));
      }
      NodeMovesTheInvocation(w, u, db.W(), runId, input, directory, given, node.value);
      var next := Follow(cp.pc);
      db.checkpoints := db.checkpoints[ThreadId(runId) := Checkpoint(next, node.value, None)];
      ghost var v := db.W();
      var dead := db.Dies();
      if dead {
        DyingAtACheckpoint(w, v, db.W(), runId, input, directory, None);
        return Some(Crashed);
      }
      return None;
    }

    /** Runs nodes from the checkpoint on until one pauses or raises, or END. */
    method Invoke(runId: string, input: GraphInput) returns (out: Outcome<GraphResult>)
      requires Wired() && MayInvoke(db.W(), runId, input)
      modifies db
      ensures GraphEnds(old(db.W()), db.W(), runId, input, workflow.Directory(), out)
    {
      hide RunInv, Evolves, NodeEnds, IsLinear, InputTaken, Underway, GraphEnds, AtNode, MayInvoke, ToolsWired;
      ghost var w := db.W();
      MayInvokeMeansRunning(w, runId, input);
      ghost var directory := workflow.Directory();
      var taken := TakeInput(runId, input);
      if taken.Raised? {
        NothingToContinue(w, runId, input, directory);
        return Raised(EmptyInput);
      }
      if taken.Crashed? {
        TakingInputStarts(w, db.W(), runId, input, directory, if input.ResumeWith? then Some(input.value) else None);
        return Crashed;
      }
      var given := taken.value;
      TakingInputStarts(w, db.W(), runId, input, directory, given);
      UnderwayIsAtANode(w, db.W(), runId, input, directory, given);
      while db.checkpoints[ThreadId(runId)].pc < END
        invariant ThreadId(runId) in db.checkpoints && Wired()
        invariant Underway(w, db.W(), runId, input, directory, given)
        invariant db.checkpoints[ThreadId(runId)].pc <= END
        decreases END - db.checkpoints[ThreadId(runId)].pc
      {
        var stop := Step(runId, given, w, input, directory);
        if stop.Some? {
          return stop.value;
        }
        given := None;
      }
      EndIsReached(w, db.W(), runId, input, directory, given);
      return Ok(Finished);
    }

    /** The edge out of the node that returned. */
    function Follow(pc: nat): (next: nat)
      requires IsLinear(edges) && pc < END
      ensures next == pc + 1
    {
      PositionsAgree(pc + 1);
      PcOf(edges[NodeVertex(WORKFLOW[pc])])
    }
  }

  lemma MayInvokeMeansRunning(w: World, runId: string, input: GraphInput)
    requires MayInvoke(w, runId, input)
    ensures runId in w.runs && w.runs[runId].status.Running?
  {
  }

  lemma NothingToContinue(w: World, runId: string, input: GraphInput, directory: map<string, Employee>)
    requires MayInvoke(w, runId, input) && ThreadId(runId) !in w.checkpoints && !input.Fresh?
    ensures GraphEnds(w, w, runId, input, directory, Raised(EmptyInput))
  {
    EvolvesReflexively(w, runId);
  }

  lemma UnderwayIsAtANode(w: World, u: World, runId: string, input: GraphInput, directory: map<string, Employee>, given: Option<ResumeValue>)
    requires Underway(w, u, runId, input, directory, given)
    ensures ThreadId(runId) in u.checkpoints && Pc(u, runId) <= END
    ensures StateOf(u, runId).runId == runId && runId in w.runs
    ensures StateOf(u, runId).employeeId == w.runs[runId].employeeId
    ensures StateOf(u, runId).employee.Some? <==> Pc(u, runId) >= 1
    ensures Pc(u, runId) < END ==> AtNode(u, runId, Pc(u, runId), StateOf(u, runId))
    ensures given.Some? ==> IsGate(Pc(u, runId))
  {
  }
}
