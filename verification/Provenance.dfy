/** Where everything in a run's stores comes from: the decision and the signature from the
    requests, the plan from the model, the labels of ledger rows and pauses from the steps
    that wrote them. */
module Provenance {
  import opened CrashTransparency
  import opened Domain
  import opened Durable
  import opened Graph
  import opened Invariant
  import opened Plan
  import opened RunHistory
  import opened RunService
  import opened Tools
  import opened TraceTable

  // ------------------------------------------------------ decisions and signatures

  /** Some request approved the run in this name. */
  predicate WasApprovedBy(h: seq<Entry>, runId: string, approver: string) {
    exists k :: 0 <= k < |h| && h[k].runId == runId && h[k].req.Resolve? && h[k].req.approved && h[k].req.approver == approver
  }

  /** Some request brought just this document, signed just then. */
  predicate WasSigned(h: seq<Entry>, runId: string, documentId: string, signedAt: string) {
    exists k :: 0 <= k < |h| && h[k].runId == runId && h[k].req == Sign(documentId, signedAt)
  }

  lemma WhatTheStateQuotes(w: World, runId: string)
    requires RunInv(w, runId) && ThreadId(runId) in w.checkpoints
    ensures var s := StateOf(w, runId);
      && (s.approval.Some? ==> Approves(s.approval.value))
      && (s.archive.Some? ==>
            s.approval.Some? && s.archive.value.Archive? && s.archive.value.summary.approvedBy == s.approval.value.approver)
  {
    hide EffectState, IsLog, LatestIsPaused, TraceFits, LabelsFit, PlanFits, LogFits, FlagFits;
  }

  lemma ApprovalsCarryTheirName(h: seq<Entry>, runId: string, v: ResumeValue)
    requires Brought(h, runId, v) && Approves(v)
    ensures WasApprovedBy(h, runId, v.approver)
  {
    var k :| 0 <= k < |h| && h[k].runId == runId && Carries(h[k].req, v);
    assert h[k].req.Resolve? && h[k].req.approved && h[k].req.approver == v.approver;
  }

  lemma SignaturesCarryTheirDocument(h: seq<Entry>, runId: string, v: ResumeValue)
    requires Brought(h, runId, v) && v.Signature?
    ensures WasSigned(h, runId, v.signedDocumentId, v.signedAt)
  {
    var k :| 0 <= k < |h| && h[k].runId == runId && Carries(h[k].req, v);
    assert h[k].req == Sign(v.signedDocumentId, v.signedAt);
  }

  /** Who approved, as the archive has it, is who approved in a request on that run; and what
      was signed and when is what such a request said. */
  lemma ArchivesNameTheApprover(w: World, h: seq<Entry>, directory: map<string, Employee>, runId: string)
    requires IsHistory(w, h, directory) && RunInv(w, runId) && runId !in w.runs && ThreadId(runId) in Final(w, h).checkpoints
    ensures var s := StateOf(Final(w, h), runId);
      && (s.archive.Some? ==> s.archive.value.Archive? && WasApprovedBy(h, runId, s.archive.value.summary.approvedBy))
      && (s.approval.Some? ==> s.approval.value.Decision? && WasApprovedBy(h, runId, s.approval.value.approver))
      && (s.signedDocument.Some? ==>
            && s.signedDocument.value.Signature?
            && WasSigned(h, runId, s.signedDocument.value.signedDocumentId, s.signedDocument.value.signedAt))
  {
    hide IsHistory, Served, RunInv, Brought, WasApprovedBy, WasSigned;
    LatestEntry(w, h, directory, runId);
    EveryValueWasBrought(w, h, directory, runId);
    WhatTheStateQuotes(Final(w, h), runId);
    var s := StateOf(Final(w, h), runId);
    if s.approval.Some? {
      ApprovalsCarryTheirName(h, runId, s.approval.value);
    }
    if s.signedDocument.Some? {
      SignaturesCarryTheirDocument(h, runId, s.signedDocument.value);
    }
  }

  /** A gate that a request took the run past holds what that request said, word for word. */
  lemma DecisionsAreRecordedAsGiven(w: World, h: seq<Entry>, directory: map<string, Employee>, i: nat)
    requires IsHistory(w, h, directory) && i < |h| && RunInv(w, h[i].runId) && Admits(Before(w, h, i), h[i].runId, h[i].req)
    requires ThreadId(h[i].runId) in h[i].after.checkpoints
    ensures var s, pc := StateOf(h[i].after, h[i].runId), Pc(h[i].after, h[i].runId);
      && (h[i].req.Resolve? && pc > 2 ==>
            h[i].req.approved && s.approval == Some(Decision(true, h[i].req.approver, h[i].req.note)))
      && (h[i].req.Sign? && pc > 5 ==> s.signedDocument == Some(Signature(h[i].req.documentId, h[i].req.signedAt)))
  {
    hide IsHistory, RunInv, Evolves, Accounted, Delivered, StoodStill, Planned, Taught, RecordFetched, Reported;
    EntriesAreServed(w, h, directory, i);
    HistoriesSplit(w, h, directory, i);
    TheInvariantHoldsThroughout(w, h[..i], directory, h[i].runId);
    if h[i].req.Resolve? || h[i].req.Sign? {
      PausedInFrontOfItsGate(Before(w, h, i), h[i].runId, h[i].req);
    }
  }

  // ---------------------------------------------------------------------- the plan

  lemma ThePlanAtHand(w: World, runId: string)
    requires RunInv(w, runId) && ThreadId(runId) in w.checkpoints && StateOf(w, runId).checklist.Some?
    ensures var s, answers := StateOf(w, runId), AnswersFor(w.answers, runId);
      && answers != [] && answers[|answers| - 1] == Shaped(DeprovisioningPlan(s.checklist.value, s.planNotes))
      && s.employee.Some? && IsAcceptable(answers[|answers| - 1], s.employee.value)
      && LatestIs(w.stepTrace, runId, PlanDeprovisioning, StepStatus.Completed, None, PlanDetail(Systems(s.checklist.value)))
  {
    hide EffectState, IsLog, LatestIsPaused, LatestIs, LabelsFit, LogFits, FlagFits, Matches;
  }

  /** The checklist and the notes a run works with are, item by item, the model's last answer
      for it, which fits the HR record; and the planning step's latest trace row is completed
      and lists that checklist's systems. */
  lemma PlansComeFromTheModel(w: World, h: seq<Entry>, directory: map<string, Employee>, runId: string)
    requires IsHistory(w, h, directory) && RunInv(w, runId)
    requires ThreadId(runId) in Final(w, h).checkpoints && StateOf(Final(w, h), runId).checklist.Some?
    ensures var u := Final(w, h);
      var s, answers := StateOf(u, runId), AnswersFor(u.answers, runId);
      && answers != [] && answers[|answers| - 1] == Shaped(DeprovisioningPlan(s.checklist.value, s.planNotes))
      && s.employee.Some? && IsAcceptable(answers[|answers| - 1], s.employee.value)
      && LatestIs(u.stepTrace, runId, PlanDeprovisioning, StepStatus.Completed, None, PlanDetail(Systems(s.checklist.value)))
  {
    hide IsHistory, Served, RunInv, IsAcceptable, LatestIs;
    LatestEntry(w, h, directory, runId);
    ThePlanAtHand(Final(w, h), runId);
  }

  /** The model answered entry `i`, and its answer does not fit the HR record. */
  predicate AnsweredWrongly(w: World, h: seq<Entry>, i: nat)
    requires i < |h|
  {
    var runId, u := h[i].runId, h[i].after;
    var before, after := AnswersFor(Before(w, h, i).answers, runId), AnswersFor(u.answers, runId);
    && |after| > |before| && ThreadId(runId) in u.checkpoints && StateOf(u, runId).employee.Some?
    && !IsAcceptable(after[|after| - 1], StateOf(u, runId).employee.value)
  }

  /** A request whose process lives ends with the run FAILED(invalid_plan) if and only if the
      model answered it with something that does not fit the HR record. */
  lemma UnfitAnswersFailTheRun(w: World, h: seq<Entry>, directory: map<string, Employee>, runId: string, i: nat)
    requires IsHistory(w, h, directory) && i < |h| && Drives(w, h, i, runId) && !h[i].out.Crashed?
    ensures runId in h[i].after.runs && (h[i].after.runs[runId].failureReason == Some(PlanInvalid) ==> h[i].after.runs[runId].status.Failed?)
    ensures h[i].after.runs[runId].failureReason == Some(PlanInvalid) <==> AnsweredWrongly(w, h, i)
  {
    hide IsHistory, Evolves, Accounted, Decided, Delivered, StoodStill, Planned, RecordFetched, IsAcceptable, AnswersFor;
    EntriesAreServed(w, h, directory, i);
    UnplannableRunsHaveACheckpoint(h[i].after, runId);
  }

  lemma UnplannableRunsHaveACheckpoint(w: World, runId: string)
    requires RunInv(w, runId) && runId in w.runs
    ensures ReasonsFit(w.runs[runId])
    ensures w.runs[runId].failureReason == Some(PlanInvalid) ==> ThreadId(runId) in w.checkpoints
  {
  }

  // -------------------------------------------------------------------- labels

  /** Every ledger row of a run says whose it is: the run, the step that reserved it, and the
      tool it was reserved for. */
  lemma LedgerRowsAreLabelled(w: World, h: seq<Entry>, directory: map<string, Employee>, runId: string, e: Effect)
    requires IsHistory(w, h, directory) && RunInv(w, runId) && KeyOf(runId, e) in Final(w, h).sideEffects
    ensures var row := Final(w, h).sideEffects[KeyOf(runId, e)];
      && row.key == KeyOf(runId, e) && row.runId == runId
      && match e
         case Revoke => row.stepName == RevokeAccess && row.toolName == IAM_REVOKE
         case Send => row.stepName == SendExitPaperwork && row.toolName == SEND_PAPERWORK
         case Archiving => row.stepName == Finalize && row.toolName == ARCHIVE_RECORD
  {
    hide IsHistory, Served, Started, NotStarted, LogFits, FlagFits, IsLog;
    LatestEntry(w, h, directory, runId);
    match e case Revoke => case Send => case Archiving =>
  }

  lemma ThePauseAtHand(w: World, runId: string)
    requires RunInv(w, runId) && runId in w.runs && w.runs[runId].status.Paused?
    ensures ThreadId(runId) in w.checkpoints && IsGate(Pc(w, runId)) && w.runs[runId].pauseReason == Some(GateReason(Pc(w, runId)))
    ensures PauseShows(w.stepTrace, runId, Pc(w, runId), StateOf(w, runId))
  {
    hide EffectState, IsLog, LatestIsPaused, LatestIs, LabelsFit, LogFits, FlagFits, StateFits;
  }

  /** A run that waits has, as its gate's latest row, the pause it waits in, with its reason
      and with what is waited for: the size of the checklist, or the document sent out. */
  lemma PausesSayWhatTheyWaitFor(w: World, h: seq<Entry>, directory: map<string, Employee>, runId: string)
    requires IsHistory(w, h, directory) && RunInv(w, runId)
    ensures var u := Final(w, h);
      && (PausedFor(u, runId, HrApproval) ==>
            && ThreadId(runId) in u.checkpoints
            && LatestIs(u.stepTrace, runId, AwaitHrApproval, StepStatus.Paused, Some(HrApproval),
                        PauseDetail(|ChecklistOf(StateOf(u, runId))|)))
      && (PausedFor(u, runId, SignedDocument) ==>
            && ThreadId(runId) in u.checkpoints && StateOf(u, runId).paperwork.Some?
            && StateOf(u, runId).paperwork.value.Paperwork?
            && LatestIs(u.stepTrace, runId, AwaitSignedDocument, StepStatus.Paused, Some(SignedDocument),
                        DocumentDetail(StateOf(u, runId).paperwork.value.documentId)))
  {
    hide IsHistory, Served, RunInv, LatestIs;
    LatestEntry(w, h, directory, runId);
    var u := Final(w, h);
    if runId in u.runs && u.runs[runId].status.Paused? {
      ThePauseAtHand(u, runId);
      ThePaperworkAtHand(u, runId);
    }
  }

  lemma ThePaperworkAtHand(w: World, runId: string)
    requires RunInv(w, runId) && ThreadId(runId) in w.checkpoints
    ensures Pc(w, runId) == 5 ==> StateOf(w, runId).paperwork.Some? && StateOf(w, runId).paperwork.value.Paperwork?
  {
    hide EffectState, IsLog, LatestIsPaused, LatestIs, TraceFits, LabelsFit, LogFits, FlagFits, PlanFits;
  }
}
