/** What each request does, read off the run's row and the request itself: when it is
    refused, and how it ends when nothing goes wrong. */
module RequestLaws {
  import opened Domain
  import opened Durable
  import opened Graph
  import opened Invariant
  import opened Nodes
  import opened RunHistory
  import opened RunService

  // ------------------------------------------------------------------ refusals

  /** A request is refused exactly for the state of the run's row, each time with the error
      that says so, and a refused request changes nothing. */
  lemma RefusalsFollowTheRow(w: World, h: seq<Entry>, directory: map<string, Employee>, i: nat)
    requires IsHistory(w, h, directory) && i < |h|
    ensures var v, req, out := Before(w, h, i), h[i].req, h[i].out;
      var exists_ := h[i].runId in v.runs;
      && (out == Raised(IntegrityError) <==> req.Start? && exists_)
      && (out == Raised(RunNotFound) <==> !req.Start? && !exists_)
      && (out == Raised(InvalidRunOperation) <==>
            && exists_ && !req.Start?
            && var r := v.runs[h[i].runId];
               match req
               case Resolve(_, _, _) => !(r.status.Paused? && r.pauseReason == Some(HrApproval))
               case Sign(_, _) => !(r.status.Paused? && r.pauseReason == Some(SignedDocument))
               case ResumeCrashed => !r.status.Running?
               case _ => r.status.Completed? || r.status.Failed? || r.status.Cancelled?)
      && (out in {Raised(IntegrityError), Raised(RunNotFound), Raised(InvalidRunOperation)} ==> h[i].after == v)
  {
    hide IsHistory, RunInv, Evolves, Drove, Wrote, CancelDone;
    EntriesAreServed(w, h, directory, i);
  }

  /** A run that is not over can always be cancelled: at once when nobody drives it, and
      otherwise by a flag. */
  lemma CancellationsAreNeverRefused(w: World, h: seq<Entry>, directory: map<string, Employee>, i: nat)
    requires IsHistory(w, h, directory) && i < |h| && h[i].req.Cancel? && h[i].runId in Before(w, h, i).runs
    requires var status := Before(w, h, i).runs[h[i].runId].status; status.Pending? || status.Running? || status.Paused?
    ensures !h[i].out.Raised? && h[i].runId in h[i].after.runs
    ensures var r, r' := Before(w, h, i).runs[h[i].runId], h[i].after.runs[h[i].runId];
      if r.status.Running? then r' == r.(cancelRequested := true) else r'.status.Cancelled?
  {
    hide IsHistory, RunInv, Evolves, Drove, Reported;
    EntriesAreServed(w, h, directory, i);
  }

  // -------------------------------------------------------------- cancelled runs

  predicate AskedToCancel(h: seq<Entry>, runId: string) {
    exists k :: 0 <= k < |h| && h[k].runId == runId && h[k].req.Cancel?
  }

  lemma OneRequestCancels(w: World, u: World, runId: string, req: Request, directory: map<string, Employee>, out: Outcome<Run>)
    requires Served(w, u, runId, req, directory, out)
    requires StatusIn(u, runId).Cancelled? && !StatusIn(w, runId).Cancelled?
    ensures req.Cancel? || u.runs[runId].cancelRequested
  {
    hide RunInv, Evolves, Drove, Wrote;
    if Admits(w, runId, req) && !req.Cancel? {
      DrivesAccount(w, u, runId, req, directory, out);
    }
  }

  /** Nobody is CANCELLED who was not asked to be: by the flag, or by a request. */
  lemma {:induction false} CancelledRunsWereCancelled(w: World, h: seq<Entry>, directory: map<string, Employee>, runId: string)
    requires IsHistory(w, h, directory) && RunInv(w, runId) && runId !in w.runs && StatusIn(Final(w, h), runId).Cancelled?
    ensures Final(w, h).runs[runId].cancelRequested || AskedToCancel(h, runId)
    decreases |h|
  {
    hide IsHistory, RunInv, Served;
    if h != [] {
      LatestEntry(w, h, directory, runId);
      var v := Final(w, Past(h));
      if StatusIn(v, runId).Cancelled? {
        CancelledRunsWereCancelled(w, Past(h), directory, runId);
        HistoriesSplit(w, h, directory, |h| - 1);
        TerminalRunsAreOver(v, h[|h| - 1..], directory, runId);
        if AskedToCancel(Past(h), runId) {
          var k :| 0 <= k < |Past(h)| && Past(h)[k].runId == runId && Past(h)[k].req.Cancel?;
          assert h[k] == Past(h)[k];
        }
      } else {
        OneRequestCancels(v, Final(w, h), runId, Latest(h).req, directory, Latest(h).out);
        assert h[|h| - 1] == Latest(h);
      }
    }
  }

  // ------------------------------------------------------ when nothing goes wrong

  /** Entry `i` is a request on a run nobody has flagged, and nothing goes wrong in it. */
  predicate IsUndisturbed(w: World, h: seq<Entry>, i: nat)
    requires i < |h|
  {
    && h[i].after.mishaps == Before(w, h, i).mishaps
    && (h[i].runId in Before(w, h, i).runs ==> !Before(w, h, i).runs[h[i].runId].cancelRequested)
  }

  predicate HasFailed(u: World, runId: string, reason: FailureReason) {
    runId in u.runs && u.runs[runId].status.Failed? && u.runs[runId].failureReason == Some(reason)
  }

  predicate WaitsFor(u: World, runId: string, reason: PauseReason) {
    runId in u.runs && u.runs[runId].status.Paused? && u.runs[runId].pauseReason == Some(reason)
  }

  lemma UndisturbedEndsAreSettled(w: World, h: seq<Entry>, directory: map<string, Employee>, i: nat)
    requires IsHistory(w, h, directory) && i < |h| && RunInv(w, h[i].runId) && IsUndisturbed(w, h, i)
    requires Admits(Before(w, h, i), h[i].runId, h[i].req) && !h[i].req.Cancel?
    requires h[i].req.ResumeCrashed? ==> ThreadId(h[i].runId) in Before(w, h, i).checkpoints
    ensures h[i].runId in h[i].after.runs && RunInv(Before(w, h, i), h[i].runId) && RunInv(h[i].after, h[i].runId)
    ensures Reported(Before(w, h, i), h[i].after, h[i].runId, h[i].req, h[i].out)
    ensures Delivered(Before(w, h, i), h[i].after, h[i].runId, h[i].req, directory, h[i].out)
  {
    hide IsHistory, RunInv, Evolves, Accounted, Decided, Delivered, StoodStill, Planned, Taught, RecordFetched, Wrote;
    EntriesAreServed(w, h, directory, i);
    HistoriesSplit(w, h, directory, i);
    TheInvariantHoldsThroughout(w, h[..i], directory, h[i].runId);
  }

  /** An undisturbed request that drives the graph for a known employee, with an approving
      value or none, fails for want of budget if and only if the budgets do not cover the way
      to its next stop. */
  lemma BudgetFailuresAreDue(w: World, h: seq<Entry>, directory: map<string, Employee>, i: nat)
    requires IsHistory(w, h, directory) && i < |h| && RunInv(w, h[i].runId) && IsUndisturbed(w, h, i)
    requires Admits(Before(w, h, i), h[i].runId, h[i].req) && !h[i].req.Cancel?
    requires h[i].req.ResumeCrashed? ==> ThreadId(h[i].runId) in Before(w, h, i).checkpoints
    requires !IsUnknown(RowFor(Before(w, h, i), h[i].runId, h[i].req), StartPc(Before(w, h, i), h[i].runId), directory)
    requires !IsRejecting(StartPc(Before(w, h, i), h[i].runId), ValueFor(Before(w, h, i), h[i].runId, InputOf(h[i].runId, h[i].req)))
    ensures var v, runId := Before(w, h, i), h[i].runId;
      var stop := StopOf(StartPc(v, runId), ValueFor(v, runId, InputOf(runId, h[i].req)).Some?);
      HasFailed(h[i].after, runId, BudgetExhausted) <==> !Affords(RowFor(v, runId, h[i].req), StartPc(v, runId), stop)
  {
    hide IsHistory, RunInv, Reported;
    UndisturbedEndsAreSettled(w, h, directory, i);
    ReasonsHold(h[i].after, h[i].runId);
  }

  lemma ReasonsHold(w: World, runId: string)
    requires RunInv(w, runId) && runId in w.runs
    ensures ReasonsFit(w.runs[runId])
    ensures w.runs[runId].status.Paused? ==>
      && ThreadId(runId) in w.checkpoints && Held(w, runId).None?
      && Pc(w, runId) == if w.runs[runId].pauseReason == Some(HrApproval) then 2 else 5
    ensures ThreadId(runId) in w.checkpoints ==> Pc(w, runId) <= END
  {
    hide EffectsFit, TraceFits, LabelsFit, LogFits, FlagFits, StateFits;
  }

  /** An undisturbed start for a known employee waits for HR if the request grants three steps
      and a tool call, and fails for want of budget otherwise. For an employee the directory
      does not know, it fails at the fetch, which is charged and leaves its one row, refused
      for good; without a step or a call to its name it does not even get there. */
  lemma UndisturbedStarts(w: World, h: seq<Entry>, directory: map<string, Employee>, i: nat)
    requires IsHistory(w, h, directory) && i < |h| && RunInv(w, h[i].runId) && IsUndisturbed(w, h, i)
    requires h[i].req.Start? && h[i].runId !in Before(w, h, i).runs
    ensures var u, runId, req := h[i].after, h[i].runId, h[i].req;
      if req.employeeId in directory then
        if req.maxSteps >= 3 && req.maxToolCalls >= 1 then WaitsFor(u, runId, HrApproval) else HasFailed(u, runId, BudgetExhausted)
      else if req.maxSteps >= 1 && req.maxToolCalls >= 1 then
        && HasFailed(u, runId, ToolFailed) && StartPc(u, runId) == 0 && u.runs[runId].toolCallCount == 1
        && FetchRefused(Before(w, h, i).stepTrace, u.stepTrace, runId)
      else HasFailed(u, runId, BudgetExhausted)
  {
    hide IsHistory, RunInv, Reported, FetchRefused;
    UndisturbedEndsAreSettled(w, h, directory, i);
    NoCheckpointBeforeTheStart(Before(w, h, i), h[i].runId);
    ReasonsHold(h[i].after, h[i].runId);
  }

  /** An undisturbed approval brings the run to the signature if four steps and two calls are
      left, and fails it for want of budget otherwise; a rejection fails it as rejected if a
      step is left to take it. */
  lemma UndisturbedDecisions(w: World, h: seq<Entry>, directory: map<string, Employee>, i: nat)
    requires IsHistory(w, h, directory) && i < |h| && RunInv(w, h[i].runId) && IsUndisturbed(w, h, i)
    requires h[i].req.Resolve? && WaitsFor(Before(w, h, i), h[i].runId, HrApproval)
    ensures var u, runId, r := h[i].after, h[i].runId, Before(w, h, i).runs[h[i].runId];
      if h[i].req.approved then
        if r.stepCount + 4 <= r.maxSteps && r.toolCallCount + 2 <= r.maxToolCalls then WaitsFor(u, runId, SignedDocument)
        else HasFailed(u, runId, BudgetExhausted)
      else HasFailed(u, runId, if r.stepCount < r.maxSteps then ApprovalRejection else BudgetExhausted)
  {
    hide IsHistory, RunInv, Reported;
    UndisturbedEndsAreSettled(w, h, directory, i);
    ReasonsHold(Before(w, h, i), h[i].runId);
    ReasonsHold(h[i].after, h[i].runId);
  }

  /** An undisturbed signature completes the run if two steps and a call are left, and fails
      it for want of budget otherwise. */
  lemma UndisturbedSignatures(w: World, h: seq<Entry>, directory: map<string, Employee>, i: nat)
    requires IsHistory(w, h, directory) && i < |h| && RunInv(w, h[i].runId) && IsUndisturbed(w, h, i)
    requires h[i].req.Sign? && WaitsFor(Before(w, h, i), h[i].runId, SignedDocument)
    ensures var u, runId, r := h[i].after, h[i].runId, Before(w, h, i).runs[h[i].runId];
      if r.stepCount + 2 <= r.maxSteps && r.toolCallCount + 1 <= r.maxToolCalls then StatusIn(u, runId).Completed?
      else HasFailed(u, runId, BudgetExhausted)
  {
    hide IsHistory, RunInv, Reported;
    UndisturbedEndsAreSettled(w, h, directory, i);
    ReasonsHold(Before(w, h, i), h[i].runId);
    ReasonsHold(h[i].after, h[i].runId);
  }
}
