/** The recovery theorem: whatever deaths, failures and continuations a run went through,
    its checkpoint, its ledger rows and its providers hold what the crash-free run holds
    at the same place. */
module CrashTransparency {
  import opened Domain
  import opened Durable
  import opened Executor
  import opened Graph
  import opened Invariant
  import opened Keys
  import opened Ledger
  import opened LedgerProtocol
  import opened Nodes
  import opened Plan
  import opened RunHistory
  import opened RunService
  import opened Tools
  import opened TraceTable

  /** What comes from outside: the HR record, the model's plan, the decision, the signature. */
  datatype Inputs = Inputs(employeeId: string, employee: Employee, checklist: seq<ChecklistItem>, planNotes: string,
                           decision: ResumeValue, signature: ResumeValue)

  /** One node of the crash-free run. */
  function CleanStep(pc: nat, s: GraphState, i: Inputs): GraphState
    requires pc < END
  {
    match NodeAt(pc)
    case FetchEmployee => s.(employee := Some(i.employee))
    case PlanDeprovisioning => s.(checklist := Some(i.checklist), planNotes := i.planNotes)
    case AwaitHrApproval => s.(approval := Some(i.decision))
    case RevokeAccess => s.(revocation := Some(ReceiptOf(Revoke, s.runId, s)))
    case SendExitPaperwork => s.(paperwork := Some(ReceiptOf(Send, s.runId, s)))
    case AwaitSignedDocument => s.(signedDocument := Some(i.signature))
    case Finalize => s.(archive := Some(ReceiptOf(Archiving, s.runId, s)))
  }

  /** The state of the crash-free run when it stands before node `pc`: seven plain steps,
      no ledger, no retries, no checkpoints. */
  function CleanRun(pc: nat, runId: string, i: Inputs): GraphState
    requires pc <= END
  {
    if pc == 0 then InitialState(runId, i.employeeId) else CleanStep(pc - 1, CleanRun(pc - 1, runId, i), i)
  }

  /** The one effect the crash-free run has under a key. */
  function CleanReceipt(e: Effect, runId: string, i: Inputs): Payload {
    ReceiptOf(e, runId, CleanRun(NodeOf(e), runId, i))
  }

  /** The inputs a checkpointed state has taken so far are these. */
  predicate TookInputs(s: GraphState, i: Inputs) {
    && s.employeeId == i.employeeId && s.planNotes == (if s.checklist.Some? then i.planNotes else "")
    && (s.employee.Some? ==> s.employee.value == i.employee)
    && (s.checklist.Some? ==> s.checklist.value == i.checklist)
    && (s.approval.Some? ==> s.approval.value == i.decision)
    && (s.signedDocument.Some? ==> s.signedDocument.value == i.signature)
  }

  /** What a receipt is made of does not change once it has been issued. */
  lemma {:induction false} ReceiptsStay(e: Effect, runId: string, i: Inputs, pc: nat)
    requires NodeOf(e) <= pc <= END
    ensures ReceiptOf(e, runId, CleanRun(pc, runId, i)) == CleanReceipt(e, runId, i)
    decreases pc
  {
    hide Receipt;
    if pc > NodeOf(e) {
      ReceiptsStay(e, runId, i, pc - 1);
    }
  }

  /** The crash-free run, field by field. */
  lemma {:induction false} CleanRunFields(pc: nat, runId: string, i: Inputs)
    requires pc <= END
    ensures CleanRun(pc, runId, i) == GraphState(runId, i.employeeId,
      if pc >= 1 then Some(i.employee) else None,
      if pc >= 2 then Some(i.checklist) else None,
      if pc >= 2 then i.planNotes else "",
      if pc >= 3 then Some(i.decision) else None,
      if pc >= 4 then Some(CleanReceipt(Revoke, runId, i)) else None,
      if pc >= 5 then Some(CleanReceipt(Send, runId, i)) else None,
      if pc >= 6 then Some(i.signature) else None,
      if pc >= 7 then Some(CleanReceipt(Archiving, runId, i)) else None)
    decreases pc
  {
    hide Receipt, ArgsOf;
    if pc > 0 {
      CleanRunFields(pc - 1, runId, i);
    }
  }

  /** The simulation: at every checkpoint of a run, however it got there, the state is the
      crash-free run's, what is behind it has happened exactly as in the crash-free run,
      what is ahead has not happened, and the effect at hand has happened so or not at all. */
  lemma CheckpointsAreCleanStates(w: World, runId: string, i: Inputs)
    requires RunInv(w, runId) && runId in w.runs && ThreadId(runId) in w.checkpoints && TookInputs(StateOf(w, runId), i)
    ensures Pc(w, runId) <= END && StateOf(w, runId) == CleanRun(Pc(w, runId), runId, i)
    ensures forall e: Effect ::
      && (NodeOf(e) > Pc(w, runId) ==> EffectState(w, runId, e) == FRESH)
      && (NodeOf(e) == Pc(w, runId) ==> RowMeans(EffectState(w, runId, e), CleanReceipt(e, runId, i)))
      && (NodeOf(e) < Pc(w, runId) ==> IsSettledWith(EffectState(w, runId, e), CleanReceipt(e, runId, i)))
  {
    hide EffectState, IsLog, RowMeans, IsSettledWith, Receipt, Matches, LatestIsPaused, WithinBudgets, ReasonsFit, NotStarted,
         LogFits, FlagFits, FailureFits, TraceFits, LabelsFit, PlanFits;
    var pc, s := Pc(w, runId), StateOf(w, runId);
    CleanRunFields(NodeOf(Revoke), runId, i);
    CleanRunFields(NodeOf(Send), runId, i);
    CleanRunFields(NodeOf(Archiving), runId, i);
    CleanRunFields(pc, runId, i);
    assert pc >= 3 ==> ReceiptOf(Revoke, runId, s) == CleanReceipt(Revoke, runId, i);
    assert pc >= 4 ==> ReceiptOf(Send, runId, s) == CleanReceipt(Send, runId, i);
    assert pc >= 6 ==> ReceiptOf(Archiving, runId, s) == CleanReceipt(Archiving, runId, i);
    forall e: Effect
      ensures EffectFits(w, runId, pc, s, e)
    {
      match e case Revoke => case Send => case Archiving =>
    }
  }

  // ------------------------------------------------------------ the whole provider

  /** Nothing was ever recorded under this run's identifier. */
  ghost predicate Unheard(w: World, runId: string) {
    && RunInv(w, runId) && runId !in w.runs
    && (forall k: Key :: k.runId == runId ==> RowIn(w.sideEffects, k) == None)
    && (forall id: EffectId :: id.key.runId == runId ==> Applied(w.providerEffects, id) == [])
  }

  lemma NothingIsHeardInTheEmptyStore(runId: string)
    ensures Unheard(EMPTY, runId)
  {
    EmptyStoreFits(runId);
  }

  /** No request, on whatever run, writes under a key that is not one of its run's three. */
  lemma {:induction false} NoStrayEffects(w: World, h: seq<Entry>, directory: map<string, Employee>, runId: string, id: EffectId)
    requires IsHistory(w, h, directory) && id.key.runId == runId
    ensures !IsOwn(runId, id) ==> Applied(Final(w, h).providerEffects, id) == Applied(w.providerEffects, id)
    ensures !IsOwnKey(runId, id.key) ==> RowIn(Final(w, h).sideEffects, id.key) == RowIn(w.sideEffects, id.key)
    decreases |h|
  {
    hide RunInv, Drove, Reported, Grows, Appends, Applied;
    if h != [] {
      PastAndLatest(w, h, directory);
      assert !IsOwnKey(runId, id.key) ==>
        RecordIn(Final(w, Past(h)).sideEffects, id.key) == RecordIn(Final(w, h).sideEffects, id.key);
      NoStrayEffects(w, Past(h), directory, runId, id);
    }
  }

  /** Everything the crash-free run leaves with the providers, and in the ledger. */
  function CleanEffects(runId: string, i: Inputs, id: EffectId): seq<Payload> {
    if id == IdOf(runId, Revoke) then [CleanReceipt(Revoke, runId, i)]
    else if id == IdOf(runId, Send) then [CleanReceipt(Send, runId, i)]
    else if id == IdOf(runId, Archiving) then [CleanReceipt(Archiving, runId, i)]
    else []
  }

  function CleanRow(runId: string, i: Inputs, k: Key): Option<LedgerRow> {
    if k == KeyOf(runId, Revoke) then Some(LedgerRow(LedgerState.Completed, Some(CleanReceipt(Revoke, runId, i))))
    else if k == KeyOf(runId, Send) then Some(LedgerRow(LedgerState.Completed, Some(CleanReceipt(Send, runId, i))))
    else if k == KeyOf(runId, Archiving) then Some(LedgerRow(LedgerState.Completed, Some(CleanReceipt(Archiving, runId, i))))
    else None
  }

  /** Crash transparency: a run that ends COMPLETED, after any schedule of deaths,
      failures and continuations, leaves in its checkpoint, in the ledger and with the
      providers exactly what the crash-free run leaves. */
  lemma CompletedRunsMatchTheCleanRun(w: World, h: seq<Entry>, directory: map<string, Employee>, runId: string, i: Inputs)
    requires IsHistory(w, h, directory) && Unheard(w, runId) && StatusIn(Final(w, h), runId).Completed?
    requires ThreadId(runId) in Final(w, h).checkpoints ==> TookInputs(StateOf(Final(w, h), runId), i)
    ensures ThreadId(runId) in Final(w, h).checkpoints && StateOf(Final(w, h), runId) == CleanRun(END, runId, i)
    ensures forall id: EffectId :: id.key.runId == runId ==> Applied(Final(w, h).providerEffects, id) == CleanEffects(runId, i, id)
    ensures forall k: Key :: k.runId == runId ==> RowIn(Final(w, h).sideEffects, k) == CleanRow(runId, i, k)
  {
    hide Served, RunInv, IsHistory, CleanReceipt, Applied, RowIn;
    var u := Final(w, h);
    LatestEntry(w, h, directory, runId);
    CompletedRunsStandAtTheEnd(u, runId);
    CheckpointsAreCleanStates(u, runId, i);
    SettledRowsAndEffects(u, runId, i);
    forall id: EffectId | id.key.runId == runId
      ensures Applied(u.providerEffects, id) == CleanEffects(runId, i, id)
    {
      NoStrayEffects(w, h, directory, runId, id);
    }
    forall k: Key | k.runId == runId
      ensures RowIn(u.sideEffects, k) == CleanRow(runId, i, k)
    {
      NoStrayEffects(w, h, directory, runId, EffectId(NoProvider, k));
    }
  }

  /** The same from the first store there ever was, with the HR record it must have been. */
  lemma EveryCompletedLifeIsClean(h: seq<Entry>, directory: map<string, Employee>, runId: string, i: Inputs)
    requires IsHistory(EMPTY, h, directory) && StatusIn(Final(EMPTY, h), runId).Completed?
    requires ThreadId(runId) in Final(EMPTY, h).checkpoints ==> TookInputs(StateOf(Final(EMPTY, h), runId), i)
    ensures var u := Final(EMPTY, h);
      && ThreadId(runId) in u.checkpoints && StateOf(u, runId) == CleanRun(END, runId, i)
      && i.employeeId in directory && i.employee == directory[i.employeeId]
      && (forall id: EffectId :: id.key.runId == runId ==> Applied(u.providerEffects, id) == CleanEffects(runId, i, id))
      && (forall k: Key :: k.runId == runId ==> RowIn(u.sideEffects, k) == CleanRow(runId, i, k))
  {
    hide Served, IsHistory, RunInv, Applied, RowIn, CleanEffects, CleanRow, CleanReceipt;
    NothingIsHeardInTheEmptyStore(runId);
    CompletedRunsMatchTheCleanRun(EMPTY, h, directory, runId, i);
    RecordsComeFromTheDirectory(EMPTY, h, directory, runId);
    LatestEntry(EMPTY, h, directory, runId);
    TheStateIsTheRuns(Final(EMPTY, h), runId);
    CleanRunFields(END, runId, i);
  }

  lemma TheStateIsTheRuns(w: World, runId: string)
    requires RunInv(w, runId) && ThreadId(runId) in w.checkpoints
    ensures runId in w.runs && StateOf(w, runId).employeeId == w.runs[runId].employeeId
  {
  }

  lemma CompletedRunsStandAtTheEnd(w: World, runId: string)
    requires RunInv(w, runId) && StatusIn(w, runId).Completed?
    ensures runId in w.runs && ThreadId(runId) in w.checkpoints && Pc(w, runId) == END
  {
  }

  lemma SettledRowsAndEffects(w: World, runId: string, i: Inputs)
    requires forall e: Effect :: IsSettledWith(EffectState(w, runId, e), CleanReceipt(e, runId, i))
    ensures forall e: Effect :: Applied(w.providerEffects, IdOf(runId, e)) == [CleanReceipt(e, runId, i)]
    ensures forall e: Effect ::
      RowIn(w.sideEffects, KeyOf(runId, e)) == Some(LedgerRow(LedgerState.Completed, Some(CleanReceipt(e, runId, i))))
  {
    hide CleanReceipt;
  }

  /** Two lives of a run that took the same inputs and completed are indistinguishable in
      everything but trace and counters. */
  lemma CompletedLivesAgree(w: World, h: seq<Entry>, w': World, h': seq<Entry>, directory: map<string, Employee>, directory': map<string, Employee>,
                            runId: string, i: Inputs)
    requires IsHistory(w, h, directory) && Unheard(w, runId) && StatusIn(Final(w, h), runId).Completed?
    requires IsHistory(w', h', directory') && Unheard(w', runId) && StatusIn(Final(w', h'), runId).Completed?
    requires ThreadId(runId) in Final(w, h).checkpoints ==> TookInputs(StateOf(Final(w, h), runId), i)
    requires ThreadId(runId) in Final(w', h').checkpoints ==> TookInputs(StateOf(Final(w', h'), runId), i)
    ensures ThreadId(runId) in Final(w, h).checkpoints && ThreadId(runId) in Final(w', h').checkpoints
    ensures StateOf(Final(w, h), runId) == StateOf(Final(w', h'), runId)
    ensures forall id: EffectId :: id.key.runId == runId ==>
      Applied(Final(w, h).providerEffects, id) == Applied(Final(w', h').providerEffects, id)
    ensures forall k: Key :: k.runId == runId ==> RowIn(Final(w, h).sideEffects, k) == RowIn(Final(w', h').sideEffects, k)
  {
    hide RunInv, IsHistory, CleanReceipt, Applied, RowIn, CleanEffects, CleanRow, CleanRun, TookInputs;
    CompletedRunsMatchTheCleanRun(w, h, directory, runId, i);
    CompletedRunsMatchTheCleanRun(w', h', directory', runId, i);
  }

  // ------------------------------------------------------- where the inputs come from

  /** The request says just this: who decided what and why, or which document was signed when. */
  predicate Carries(req: Request, v: ResumeValue) {
    match v
    case Decision(approved, approver, note) => req == Resolve(approved, approver, note)
    case Signature(signedDocumentId, signedAt) => req == Sign(signedDocumentId, signedAt)
  }

  /** Some request on the run brought this value. */
  predicate Brought(h: seq<Entry>, runId: string, v: ResumeValue) {
    exists k :: 0 <= k < |h| && h[k].runId == runId && Carries(h[k].req, v)
  }

  lemma InputsCarryTheRequest(runId: string, req: Request, v: ResumeValue)
    requires InputOf(runId, req) == ResumeWith(v)
    ensures Carries(req, v)
  {
  }

  /** Every value in the checkpoint, saved or consumed, was brought by a request: decisions
      to the first gate, signatures to the second. */
  predicate ValuesWereBrought(w: World, h: seq<Entry>, runId: string)
  {
    ThreadId(runId) in w.checkpoints ==>
      var cp := w.checkpoints[ThreadId(runId)];
      && (cp.resume.Some? ==> Brought(h, runId, cp.resume.value) && (if cp.pc == 2 then cp.resume.value.Decision? else cp.resume.value.Signature?))
      && (cp.state.approval.Some? ==> Brought(h, runId, cp.state.approval.value))
      && (cp.state.signedDocument.Some? ==> Brought(h, runId, cp.state.signedDocument.value) && cp.state.signedDocument.value.Signature?)
  }

  lemma BroughtStaysBrought(h: seq<Entry>, runId: string, v: ResumeValue)
    requires h != []
    ensures Brought(Past(h), runId, v) ==> Brought(h, runId, v)
    ensures Latest(h).runId == runId && Carries(Latest(h).req, v) ==> Brought(h, runId, v)
  {
    if Brought(Past(h), runId, v) {
      var k :| 0 <= k < |Past(h)| && Past(h)[k].runId == runId && Carries(Past(h)[k].req, v);
      assert h[k] == Past(h)[k];
    }
  }

  /** What a request finds at its gate was brought, by itself or before. */
  lemma TheValueFoundWasBrought(w: World, h: seq<Entry>, runId: string)
    requires h != [] && Latest(h).runId == runId && RunInv(w, runId) && ValuesWereBrought(w, Past(h), runId)
    requires Admits(w, runId, Latest(h).req)
    ensures var value := ValueFor(w, runId, InputOf(runId, Latest(h).req));
      value.Some? ==>
        && Brought(h, runId, value.value) && IsGate(StartPc(w, runId))
        && if StartPc(w, runId) == 2 then value.value.Decision? else value.value.Signature?
  {
    hide Brought, EffectsFit, StateFits, IsLog, LatestIsPaused;
    var value := ValueFor(w, runId, InputOf(runId, Latest(h).req));
    if value.Some? {
      BroughtStaysBrought(h, runId, value.value);
      if Latest(h).req.Resolve? || Latest(h).req.Sign? {
        InputsCarryTheRequest(runId, Latest(h).req, value.value);
      }
    }
    if Latest(h).req.Resolve? || Latest(h).req.Sign? {
      PausedInFrontOfItsGate(w, runId, Latest(h).req);
    }
  }

  /** Values that were brought before, or in the last entry, are brought by then. */
  lemma ValuesStayBrought(w: World, u: World, h: seq<Entry>, runId: string)
    requires h != [] && ValuesWereBrought(w, Past(h), runId)
    requires (ThreadId(runId) in w.checkpoints <==> ThreadId(runId) in u.checkpoints)
    requires ThreadId(runId) in w.checkpoints ==> u.checkpoints[ThreadId(runId)] == w.checkpoints[ThreadId(runId)]
    ensures ValuesWereBrought(u, h, runId)
  {
    hide Brought;
    if ThreadId(runId) in u.checkpoints {
      var cp := u.checkpoints[ThreadId(runId)];
      if cp.resume.Some? {
        BroughtStaysBrought(h, runId, cp.resume.value);
      }
      if cp.state.approval.Some? {
        BroughtStaysBrought(h, runId, cp.state.approval.value);
      }
      if cp.state.signedDocument.Some? {
        BroughtStaysBrought(h, runId, cp.state.signedDocument.value);
      }
    }
  }

  /** Where the values in the checkpoint come from: they were there, or they are the value
      the invocation found at its gate. */
  lemma ValuesComeFromTheGate(w: World, u: World, runId: string, input: GraphInput)
    requires RunInv(u, runId) && Grows(w, u, runId) && ThreadId(runId) in u.checkpoints && ValueUsed(w, u, runId, input)
    requires RunInv(w, runId)
    ensures var cp, value := u.checkpoints[ThreadId(runId)], ValueFor(w, runId, input);
      && (cp.resume.Some? ==> cp.resume == value && cp.pc == StartPc(w, runId))
      && (cp.state.approval.Some? ==>
            cp.state.approval == value || (ThreadId(runId) in w.checkpoints && StateOf(w, runId).approval == cp.state.approval))
      && (cp.state.signedDocument.Some? ==>
            || (cp.state.signedDocument == value && StartPc(w, runId) == 5)
            || (ThreadId(runId) in w.checkpoints && StateOf(w, runId).signedDocument == cp.state.signedDocument))
  {
    hide EffectsFit, EffectState, IsLog, LatestIsPaused;
    if ThreadId(runId) in w.checkpoints {
      InvariantFitsTheState(w, runId);
    }
    InvariantFitsTheState(u, runId);
  }

  lemma InvariantFitsTheState(w: World, runId: string)
    requires RunInv(w, runId) && ThreadId(runId) in w.checkpoints
    ensures StateFits(Pc(w, runId), StateOf(w, runId))
  {
  }

  lemma OneRequestBrings(w: World, u: World, h: seq<Entry>, runId: string, directory: map<string, Employee>)
    requires h != [] && Latest(h).runId == runId && RunInv(w, runId) && ValuesWereBrought(w, Past(h), runId)
    requires Served(w, u, runId, Latest(h).req, directory, Latest(h).out)
    ensures ValuesWereBrought(u, h, runId)
  {
    hide RunInv, Brought, Grows, Accounted, Delivered, StoodStill, OthersUntouched, Appends, ValueUsed, Planned, Taught, RecordFetched, Wrote;
    var req := Latest(h).req;
    if !Admits(w, runId, req) || req.Cancel? {
      ValuesStayBrought(w, u, h, runId);
    } else if ThreadId(runId) in u.checkpoints {
      TheValueFoundWasBrought(w, h, runId);
      ValuesComeFromTheGate(w, u, runId, InputOf(runId, req));
      if ThreadId(runId) in w.checkpoints {
        ValuesStayBrought(w, w, h, runId);
      }
    }
  }

  /** No decision and no signature is ever made up: each comes from a request. */
  lemma {:induction false} EveryValueWasBrought(w: World, h: seq<Entry>, directory: map<string, Employee>, runId: string)
    requires IsHistory(w, h, directory) && RunInv(w, runId) && runId !in w.runs
    ensures ValuesWereBrought(Final(w, h), h, runId)
    decreases |h|
  {
    hide RunInv, Served, Brought;
    if h == [] {
      NoCheckpointBeforeTheStart(w, runId);
    } else {
      hide ValuesWereBrought;
      LatestEntry(w, h, directory, runId);
      EveryValueWasBrought(w, Past(h), directory, runId);
      if Latest(h).runId == runId {
        OneRequestBrings(Final(w, Past(h)), Final(w, h), h, runId, directory);
      } else {
        ValuesStayBrought(Final(w, Past(h)), Final(w, h), h, runId);
      }
    }
  }

  // ------------------------------------------------------------- safety, run by run

  /** Something of an effect exists somewhere. */
  predicate HasTraceOf(w: World, runId: string, e: Effect) {
    EffectState(w, runId, e) != FRESH
  }

  /** Some request approved this run. */
  predicate WasApproved(h: seq<Entry>, runId: string) {
    exists k :: 0 <= k < |h| && h[k].runId == runId && h[k].req.Resolve? && h[k].req.approved
  }

  lemma ApprovalInHand(w: World, runId: string)
    requires RunInv(w, runId)
    requires HasTraceOf(w, runId, Revoke) || HasTraceOf(w, runId, Send) || HasTraceOf(w, runId, Archiving)
    ensures runId in w.runs && ThreadId(runId) in w.checkpoints && w.runs[runId].failureReason != Some(ApprovalRejection)
    ensures StateOf(w, runId).approval.Some? && Approves(StateOf(w, runId).approval.value)
  {
    hide EffectState, IsLog, LatestIsPaused;
  }

  /** Nothing irreversible happens without approval: any ledger row or provider record of
      a run implies that a request approved it and that the checkpoint says so; a run that
      failed by rejection has none. */
  lemma ApprovalPrecedesEveryEffect(w: World, h: seq<Entry>, directory: map<string, Employee>, runId: string, e: Effect)
    requires IsHistory(w, h, directory) && RunInv(w, runId) && runId !in w.runs && HasTraceOf(Final(w, h), runId, e)
    ensures WasApproved(h, runId)
    ensures runId in Final(w, h).runs && Final(w, h).runs[runId].failureReason != Some(ApprovalRejection)
    ensures ThreadId(runId) in Final(w, h).checkpoints && StateOf(Final(w, h), runId).approval.Some?
    ensures Approves(StateOf(Final(w, h), runId).approval.value)
  {
    hide RunInv, Served, HasTraceOf;
    var u := Final(w, h);
    LatestEntry(w, h, directory, runId);
    assert HasTraceOf(u, runId, Revoke) || HasTraceOf(u, runId, Send) || HasTraceOf(u, runId, Archiving) by {
      match e case Revoke => case Send => case Archiving =>
    }
    ApprovalInHand(u, runId);
    EveryValueWasBrought(w, h, directory, runId);
    var v := StateOf(u, runId).approval.value;
    var k :| 0 <= k < |h| && h[k].runId == runId && Carries(h[k].req, v);
    assert h[k].req.Resolve? && h[k].req.approved;
  }

  /** The HR record in the checkpoint is the directory's, for the run's own employee. */
  predicate RecordIsTheDirectorys(w: World, runId: string, directory: map<string, Employee>) {
    ThreadId(runId) in w.checkpoints && StateOf(w, runId).employee.Some? ==>
      && runId in w.runs && w.runs[runId].employeeId in directory
      && StateOf(w, runId).employee == Some(directory[w.runs[runId].employeeId])
  }

  lemma OneRequestFetches(w: World, u: World, runId: string, req: Request, directory: map<string, Employee>, out: Outcome<Run>)
    requires RunInv(w, runId) && RecordIsTheDirectorys(w, runId, directory) && Served(w, u, runId, req, directory, out)
    ensures RecordIsTheDirectorys(u, runId, directory)
  {
    hide EffectsFit, StateFits, EffectState, IsLog, LatestIsPaused, LogFits, FlagFits, Accounted, Decided, Delivered, StoodStill, Planned,
         Taught, Wrote, OthersUntouched, Appends, TraceFits, LabelsFit, PlanFits, NoGateRows, FailureFits;
  }

  /** Whatever record a run works with was fetched for its own employee, however often the
      node was re-run. */
  lemma {:induction false} RecordsComeFromTheDirectory(w: World, h: seq<Entry>, directory: map<string, Employee>, runId: string)
    requires IsHistory(w, h, directory) && RunInv(w, runId) && runId !in w.runs
    ensures RecordIsTheDirectorys(Final(w, h), runId, directory)
    decreases |h|
  {
    hide IsHistory, Served, RunInv, EffectState;
    if h == [] {
      NoCheckpointBeforeTheStart(w, runId);
    } else {
      LatestEntry(w, h, directory, runId);
      RecordsComeFromTheDirectory(w, Past(h), directory, runId);
      if Latest(h).runId == runId {
        OneRequestFetches(Final(w, Past(h)), Final(w, h), runId, Latest(h).req, directory, Latest(h).out);
      }
    }
  }

  lemma ARevocationIsTheChecklists(w: World, runId: string)
    requires RunInv(w, runId) && Applied(w.providerEffects, IdOf(runId, Revoke)) != []
    ensures ThreadId(runId) in w.checkpoints && StateOf(w, runId).employee.Some?
    ensures var s := StateOf(w, runId);
      && Matches(ChecklistOf(s), s.employee.value)
      && Applied(w.providerEffects, IdOf(runId, Revoke)) == [ReceiptOf(Revoke, runId, s)]
  {
    hide IsLog, LatestIsPaused, LogFits, FlagFits;
  }

  /** Plan fidelity end to end: an access revocation covers the systems the HR directory
      lists for the run's employee, all of them and no others, and at least one, whatever
      the model answered. */
  lemma RevocationsCoverTheRecord(w: World, h: seq<Entry>, directory: map<string, Employee>, runId: string)
    requires IsHistory(w, h, directory) && RunInv(w, runId) && runId !in w.runs
    requires Applied(Final(w, h).providerEffects, IdOf(runId, Revoke)) != []
    ensures var u := Final(w, h);
      && runId in u.runs && u.runs[runId].employeeId in directory
      && exists r: Payload :: Applied(u.providerEffects, IdOf(runId, Revoke)) == [r] && r.Revocation?
           && SystemSet(r.revokedSystems) == SystemSet(directory[u.runs[runId].employeeId].systems)
           && r.revokedSystems != []
  {
    hide Served, IsHistory, RunInv;
    LatestEntry(w, h, directory, runId);
    RecordsComeFromTheDirectory(w, h, directory, runId);
    ARevocationIsTheChecklists(Final(w, h), runId);
    var s := StateOf(Final(w, h), runId);
    ProposedAreTheListedSystems(ChecklistOf(s));
    assert ReceiptOf(Revoke, runId, s).revokedSystems == Systems(ChecklistOf(s));
  }

  /** Every effect happens at most once, and is only ever the crash-free run's. */
  lemma EffectsHappenAtMostOnce(w: World, h: seq<Entry>, directory: map<string, Employee>, runId: string, e: Effect)
    requires IsHistory(w, h, directory) && RunInv(w, runId)
    ensures |Applied(Final(w, h).providerEffects, IdOf(runId, e))| <= 1
    ensures Applied(Final(w, h).providerEffects, IdOf(runId, e)) != [] ==>
      && ThreadId(runId) in Final(w, h).checkpoints
      && Applied(Final(w, h).providerEffects, IdOf(runId, e)) == [ReceiptOf(e, runId, StateOf(Final(w, h), runId))]
  {
    hide Served, IsHistory, IsLog, LatestIsPaused, ReceiptOf, StateFits, TraceFits, LabelsFit, PlanFits, LogFits, FlagFits;
    LatestEntry(w, h, directory, runId);
    match e case Revoke => case Send => case Archiving =>
  }

  /** Over its whole life a run makes at most as many tool calls as it was charged, and is
      charged at most its allowance: restarts do not refill it. */
  lemma ToolCallsStayWithinTheAllowance(w: World, h: seq<Entry>, directory: map<string, Employee>, runId: string)
    requires IsHistory(w, h, directory) && RunInv(w, runId) && runId in Final(w, h).runs
    ensures CallsFor(Final(w, h).calls, runId) <= Final(w, h).runs[runId].toolCallCount <= Max(0, Final(w, h).runs[runId].maxToolCalls)
    ensures Final(w, h).runs[runId].stepCount <= Max(0, Final(w, h).runs[runId].maxSteps)
    ensures runId !in w.runs ==>
      exists k: nat ::
        && CreatedAt(w, h, runId, k)
        && CallsFor(Final(w, h).calls, runId) <= Final(w, h).runs[runId].toolCallCount <= Max(0, h[k].req.maxToolCalls)
        && Final(w, h).runs[runId].stepCount <= Max(0, h[k].req.maxSteps)
  {
    hide Served, IsHistory, IsLog, LatestIsPaused, Started, NotStarted, CreatedAt;
    LatestEntry(w, h, directory, runId);
    if runId !in w.runs {
      var k := RunsAreWhatWasAskedFor(w, h, directory, runId);
    }
  }

  ghost predicate IsDone(w: World, runId: string, e: Effect) {
    exists r: Payload :: IsSettledWith(EffectState(w, runId, e), r)
  }

  /** What a status tells about the effects: waiting for HR, none of them exists; waiting
      for the signature, access is revoked and the paperwork sent, nothing archived;
      completed, all three are done, in both stores. */
  lemma StatusTellsTheEffects(w: World, h: seq<Entry>, directory: map<string, Employee>, runId: string)
    requires IsHistory(w, h, directory) && RunInv(w, runId)
    ensures var u := Final(w, h);
      && (PausedFor(u, runId, HrApproval) ==> NoEffects(u, runId))
      && (PausedFor(u, runId, SignedDocument) ==>
            IsDone(u, runId, Revoke) && IsDone(u, runId, Send) && !HasTraceOf(u, runId, Archiving))
      && (StatusIn(u, runId).Completed? ==> IsDone(u, runId, Revoke) && IsDone(u, runId, Send) && IsDone(u, runId, Archiving))
  {
    hide Served, IsHistory, IsLog, LatestIsPaused, ReceiptOf, StateFits, IsSettledWith, RowMeans, EffectState, LogFits, FlagFits, FailureFits;
    LatestEntry(w, h, directory, runId);
  }

  /** The trace is a log: what a request finds in it stays, in place, for ever, and a run
      that waits at a gate has that gate's pause as the gate's latest row. */
  lemma {:induction false} TheTraceIsAppendOnly(w: World, h: seq<Entry>, directory: map<string, Employee>, runId: string)
    requires IsHistory(w, h, directory) && RunInv(w, runId)
    ensures w.stepTrace <= Final(w, h).stepTrace && IsLog(Final(w, h).stepTrace)
    ensures PausedFor(Final(w, h), runId, HrApproval) ==> LatestIsPaused(Final(w, h).stepTrace, runId, AwaitHrApproval)
    ensures PausedFor(Final(w, h), runId, SignedDocument) ==> LatestIsPaused(Final(w, h).stepTrace, runId, AwaitSignedDocument)
    decreases |h|
  {
    hide Reported, Drove, Grows, OthersUntouched, EffectsFit, LatestIsPaused, IsLog, EffectState, IsHistory;
    LatestEntry(w, h, directory, runId);
    if h != [] {
      PastAndLatest(w, h, directory);
      TheTraceIsAppendOnly(w, Past(h), directory, runId);
    }
  }

  // ---------------------------------------------------------------- how a run ends

  /** The three receipts of the crash-free run, written out: who was asked to revoke what,
      what was sent to whom, and an archive that quotes the other two and the approver. */
  lemma CleanReceiptsSpelledOut(runId: string, i: Inputs)
    requires Approves(i.decision)
    ensures var systems := Systems(i.checklist);
      var revocationId, documentId := "rev__all_systems", "doc_:send_packet";
      var s := CleanRun(END, runId, i);
      && s.revocation == Some(Revocation(i.employeeId, systems, revocationId))
      && s.paperwork == Some(Paperwork(documentId, i.employeeId, i.employee.email, |i.checklist|))
      && s.archive == Some(Archive("arc_lize:archive", i.employeeId,
                                   Summary(i.employeeId, systems, revocationId, documentId, i.decision.approver)))
  {
    hide Render, LastTwelve;
    ReceiptIdsDoNotDependOnTheRun(runId);
    assert "rev_" + "_all_systems" == "rev__all_systems";
    assert "doc_" + ":send_packet" == "doc_:send_packet";
    assert "arc_" + "lize:archive" == "arc_lize:archive";
    CleanRunFields(NodeOf(Revoke), runId, i);
    CleanRunFields(NodeOf(Send), runId, i);
    CleanRunFields(NodeOf(Archiving), runId, i);
    CleanRunFields(END, runId, i);
  }

  /** A failure reason tells where the run stopped and why; a rejected or unplannable run
      has touched nothing; with the package's tools no run needs reconciliation and no
      step is refused its tool. */
  lemma FailureReasonsMeanWhatTheySay(w: World, h: seq<Entry>, directory: map<string, Employee>, runId: string)
    requires IsHistory(w, h, directory) && RunInv(w, runId) && StatusIn(Final(w, h), runId).Failed?
    ensures var u := Final(w, h);
      var reason := u.runs[runId].failureReason;
      && ThreadId(runId) in u.checkpoints && reason.Some?
      && (reason.value.ApprovalRejection? ==> Pc(u, runId) == 2 && NoEffects(u, runId))
      && (reason.value.PlanInvalid? ==> Pc(u, runId) == 1 && NoEffects(u, runId))
      && (reason.value.BudgetExhausted? ==> OutOfBudget(u.runs[runId]))
      && (reason.value.ToolFailed? ==> Pc(u, runId) < END && !IsGate(Pc(u, runId)))
      && !reason.value.ToolRefused? && !reason.value.NeedsReconciliation?
  {
    hide IsHistory, Served, EffectState, IsLog, LatestIsPaused, RowMeans, IsSettledWith, ReceiptOf;
    LatestEntry(w, h, directory, runId);
  }

  predicate WasRejected(h: seq<Entry>, runId: string) {
    exists k :: 0 <= k < |h| && h[k].runId == runId && h[k].req.Resolve? && !h[k].req.approved
  }

  predicate IsRejected(w: World, runId: string) {
    runId in w.runs && w.runs[runId].failureReason == Some(ApprovalRejection)
  }

  lemma ARejectionWasBrought(w: World, u: World, h: seq<Entry>, runId: string, directory: map<string, Employee>)
    requires h != [] && Latest(h).runId == runId && RunInv(w, runId) && ValuesWereBrought(w, Past(h), runId)
    requires Served(w, u, runId, Latest(h).req, directory, Latest(h).out)
    requires IsRejected(u, runId) && !IsRejected(w, runId)
    ensures WasRejected(h, runId)
  {
    hide Brought, EffectState, IsLog, LatestIsPaused, EffectsFit, StateFits, Accounted, Delivered, StoodStill, OthersUntouched, Appends;
    var req := Latest(h).req;
    TheValueFoundWasBrought(w, h, runId);
    var v := ValueFor(w, runId, InputOf(runId, req)).value;
    ADecisionIsAResolve(h, runId, v);
  }

  lemma ADecisionIsAResolve(h: seq<Entry>, runId: string, v: ResumeValue)
    requires Brought(h, runId, v) && v.Decision? && !v.approved
    ensures WasRejected(h, runId)
  {
    var k :| 0 <= k < |h| && h[k].runId == runId && Carries(h[k].req, v);
    assert h[k].req.Resolve? && !h[k].req.approved;
  }

  /** No run is failed for a rejection nobody made. */
  lemma {:induction false} RejectionsWereMade(w: World, h: seq<Entry>, directory: map<string, Employee>, runId: string)
    requires IsHistory(w, h, directory) && RunInv(w, runId) && runId !in w.runs && IsRejected(Final(w, h), runId)
    ensures WasRejected(h, runId)
    decreases |h|
  {
    hide IsHistory, Served, RunInv, ValuesWereBrought;
    LatestEntry(w, h, directory, runId);
    if h != [] {
      if IsRejected(Final(w, Past(h)), runId) {
        RejectionsWereMade(w, Past(h), directory, runId);
        var k :| 0 <= k < |Past(h)| && Past(h)[k].runId == runId && Past(h)[k].req.Resolve? && !Past(h)[k].req.approved;
        assert h[k] == Past(h)[k];
      } else {
        EveryValueWasBrought(w, Past(h), directory, runId);
        ARejectionWasBrought(Final(w, Past(h)), Final(w, h), h, runId, directory);
      }
    }
  }

  /** A rejection that was served to the end is the end: the run is over, not completed,
      and nothing of it exists or will ever exist in ledger and providers. */
  lemma ARejectionEndsTheRun(w: World, h: seq<Entry>, directory: map<string, Employee>, k: nat)
    requires IsHistory(w, h, directory) && k < |h| && RunInv(w, h[k].runId)
    requires Admits(Before(w, h, k), h[k].runId, h[k].req) && h[k].req.Resolve? && !h[k].req.approved && h[k].out.Ok?
    ensures IsLost(Final(w, h), h[k].runId) && NoEffects(Final(w, h), h[k].runId)
  {
    hide IsHistory, RunInv, EffectState, Accounted, Delivered, StoodStill, OthersUntouched, Appends;
    var runId, v := h[k].runId, h[k].after;
    HistoriesSplit(w, h, directory, k);
    HistoriesSplit(w, h, directory, k + 1);
    TheInvariantHoldsThroughout(w, h[..k], directory, runId);
    EntriesAreServed(w, h, directory, k);
    PausedInFrontOfItsGate(Before(w, h, k), runId, h[k].req);
    BeforeTheFirstEffect(v, runId);
    TerminalRunsAreOver(v, h[k + 1..], directory, runId);
  }

  lemma BeforeTheFirstEffect(w: World, runId: string)
    requires RunInv(w, runId) && ThreadId(runId) in w.checkpoints
    ensures Pc(w, runId) <= 2 ==> NoEffects(w, runId)
    ensures StatusIn(w, runId).Completed? ==> Pc(w, runId) == END
  {
    hide EffectState, IsLog, LatestIsPaused;
  }

  // ------------------------------------------------------------ asking the model

  /** Entry `i` of a history drove the graph for this run. */
  predicate Drives(w: World, h: seq<Entry>, i: nat, runId: string)
    requires i < |h|
  {
    h[i].runId == runId && Admits(Before(w, h, i), runId, h[i].req) && !h[i].req.Cancel?
  }

  function ChargesIn(w: World, runId: string): nat {
    if runId in w.runs then w.runs[runId].toolCallCount else 0
  }

  /** A request asks the model at most once. When that one call fails transiently the request
      does not try again: it leaves one failed planning row, charges no tool call for it, and
      ends with the run FAILED(tool_failed), unless the process dies first. */
  lemma TransientModelFailuresAreFinal(w: World, h: seq<Entry>, directory: map<string, Employee>, runId: string, i: nat)
    requires IsHistory(w, h, directory) && i < |h| && Drives(w, h, i, runId)
    ensures var v, u := Before(w, h, i), h[i].after;
      && PlanRows(v, runId) <= PlanRows(u, runId) <= PlanRows(v, runId) + 1
      && (StartPc(u, runId) == 1 && PlanRows(u, runId) > PlanRows(v, runId) && !h[i].out.Crashed?
            && PlanningFailed(u.stepTrace, runId, TransientToolError) ==>
            && StatusIn(u, runId).Failed? && u.runs[runId].failureReason == Some(ToolFailed)
            && (StartPc(v, runId) == 1 ==> ChargesIn(u, runId) == ChargesIn(v, runId)))
  {
    hide IsHistory, RunInv, Evolves, Accounted, Decided, Delivered, StoodStill, RecordFetched, CountFor;
    EntriesAreServed(w, h, directory, i);
  }
}
