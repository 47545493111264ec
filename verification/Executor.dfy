/** The tool executor: allowlist, durable budget, ledger and trace around every call,
    and the retry loop over transient failures. */
module Executor {
  import opened Domain
  import opened Durable
  import opened Ledger
  import opened LedgerProtocol
  import opened RunTable
  import opened Tools
  import opened TraceTable

  datatype ExecutionResult = ExecutionResult(result: Payload, attempts: nat, replayed: bool, reconciled: bool) {
    function AsLedger(): LedgerOutcome {
      LedgerOutcome(result, replayed, reconciled)
    }
  }

  function Max(a: int, b: int): int {
    if a < b then b else a
  }

  /** The runs table after `n` more tool calls were charged to a run. */
  function Charged(runs: map<string, Run>, runId: string, n: nat): map<string, Run> {
    if n == 0 || runId !in runs then runs else runs[runId := Bumped(runs[runId], 0, n)]
  }

  /** The row of a failed attempt that tenacity retries. */
  predicate IsRetried(row: StepAttempt, attempt: nat) {
    row.status.Failed? && row.errorType == Some(TransientToolError) && row.detail == RetryDetail(true, attempt)
  }

  /** What the last row of an `execute` call says about how the call ended. */
  predicate LastRowFits(row: StepAttempt, attempt: nat, out: Outcome<ExecutionResult>) {
    match out
    case Ok(r) =>
      && r.attempts == attempt
      && row.status.Completed?
      && row.errorType.None?
      && row.detail == CallDetail(attempt, r.replayed, r.reconciled, r.result)
    case Crashed => true
    case Raised(e) =>
      if e.TransientToolError? then IsRetried(row, attempt)
      else if e.PermanentToolError? || e.SideEffectReconciliationRequired? then
        row.status.Failed? && row.errorType == Some(e) && row.detail == RetryDetail(false, attempt)
      else if e.BudgetExceeded? || e.ToolNotAllowed? then
        row.status.Failed? && row.errorType == Some(e) && row.detail == Guardrail
      else
        row.status.Running?
  }

  /** The rows one `execute` call appends: retried failures, then the row that ends it. */
  ghost predicate RowsOfExecute(t: seq<StepAttempt>, t': seq<StepAttempt>, runId: string, step: StepName,
                                toolName: string, out: Outcome<ExecutionResult>) {
    && |t| < |t'|
    && t'[..|t|] == t
    && (forall i :: |t| <= i < |t'| ==> IsFor(t'[i], runId, step) && t'[i].toolInvoked == Some(toolName))
    && (forall i :: |t| <= i < |t'| - 1 ==> IsRetried(t'[i], i - |t| + 1))
    && LastRowFits(t'[|t'| - 1], |t'| - |t|, out)
  }

  class ToolExecutor {
    const registry: ToolRegistry
    const ledger: SideEffectLedger
    const runs: RunRepository
    const trace: TraceRepository
    const maxAttempts: int
    const db: Store := trace.db

    constructor (registry: ToolRegistry, ledger: SideEffectLedger, runs: RunRepository, trace: TraceRepository, maxAttempts: int)
      ensures this.registry == registry && this.ledger == ledger && this.runs == runs
      ensures this.trace == trace && this.maxAttempts == maxAttempts
    {
      this.registry, this.ledger, this.runs, this.trace, this.maxAttempts := registry, ledger, runs, trace, maxAttempts;
    }

    predicate Wired() {
      runs.db == db && ledger.store.db == db
    }

    /** Calls a tool, retrying transient failures, with one trace row per attempt. The
        ghost results are the ledger scripts of the attempts, in order, and the number
        of calls charged to the run. Nothing is done for a run that does not exist. */
    method Execute(runId: string, step: StepName, toolName: string, allowlist: set<string>, kwargs: Kwargs,
                   operation: Option<string>)
      returns (out: Outcome<ExecutionResult>, ghost cs: seq<Script>, ghost charged: nat)
      requires Wired() && IsLog(db.stepTrace)
      modifies db`runs, db`stepTrace, db`sideEffects, db`providerEffects, db`calls, db`mishaps
      ensures runId !in old(db.runs) ==> db.W() == old(db.W()) && out == Raised(ErrorWithoutRun(toolName, allowlist, operation))
      ensures runId in old(db.runs) ==>
        (out == Raised(ValueError) && db.W() == old(db.W()))
        || Booked(old(db.W()), db.W(), runId, step, toolName, maxAttempts, charged, out)
      ensures out == Raised(ValueError) ==> operation.None? && toolName in registry.tools && registry.tools[toolName].spec.sideEffecting
      ensures IsLog(db.stepTrace) && AppendsFor(old(db.stepTrace), db.stepTrace, runId, step)
      ensures old(db.mishaps) + (if out.Crashed? then 1 else 0) <= db.mishaps
      ensures runId in old(db.runs) && (toolName !in allowlist || toolName !in registry.tools) ==>
        (out == Raised(ToolNotAllowed) || out.Crashed?) && charged == 0
      ensures out == Raised(ToolNotAllowed) ==> toolName !in allowlist || toolName !in registry.tools
      ensures |cs| <= charged
      ensures toolName !in registry.tools ==>
        db.sideEffects == old(db.sideEffects) && db.providerEffects == old(db.providerEffects)
      ensures toolName in registry.tools ==>
        Handled(old(db.W()), db.W(), registry.tools[toolName], kwargs, Key(runId, step, OperationOr(operation)), cs, out)
      ensures runId in old(db.runs) && toolName in allowlist && toolName in registry.tools
              && (operation.Some? || !registry.tools[toolName].spec.sideEffecting) ==>
        WentWell(old(db.W()), db.W(), runId, registry.tools[toolName], kwargs, Key(runId, step, OperationOr(operation)), charged, out)
    {
      hide IsLog, AppendsFor, Booked, Handled, WentWell, Spent, CallsGrewBy, RetriedRows, OnlyKey, Tracked;
      ghost var w := db.W();
      cs, charged := [], 0;
      NothingSpent(w, runId, step);
      var resolved := registry.Resolve(toolName, allowlist);
      if resolved == null {
        out := RefuseTool(runId, step, toolName);
        if toolName in registry.tools {
          OnlyTheTraceMoved(w, db.W(), registry.tools[toolName], kwargs, Key(runId, step, OperationOr(operation)), out);
        }
        return;
      }
      var tool: Tool := resolved;
      if tool.spec.sideEffecting && operation.None? {
        OnlyTheTraceMoved(w, w, tool, kwargs, Key(runId, step, OperationOr(operation)), Raised(ValueError));
        return Raised(ValueError), cs, charged;
      }
      // The first attempt's budget check reads the run; rows of `runs` are never deleted.
      var run := runs.Get(runId);
      if run.Raised? {
        OnlyTheTraceMoved(w, w, tool, kwargs, Key(runId, step, OperationOr(operation)), Raised(RunNotFound));
        return Raised(RunNotFound), cs, charged;
      }
      out, cs, charged := Retry(runId, step, toolName, tool, kwargs, Key(runId, step, OperationOr(operation)));
    }

    /** A tool outside the step's allowlist: one guardrail row, and the refusal goes on. */
    method RefuseTool(runId: string, step: StepName, toolName: string) returns (out: Outcome<ExecutionResult>)
      requires Wired() && IsLog(db.stepTrace)
      modifies db`stepTrace, db`mishaps
      ensures IsLog(db.stepTrace) && AppendsFor(old(db.stepTrace), db.stepTrace, runId, step)
      ensures runId !in db.runs ==> db.W() == old(db.W()) && out == Raised(IntegrityError)
      ensures runId in db.runs ==>
        && (out == Raised(ToolNotAllowed) || out.Crashed?)
        && Booked(old(db.W()), db.W(), runId, step, toolName, maxAttempts, 0, out)
      ensures old(db.mishaps) + (if out.Crashed? then 1 else 0) == db.mishaps
    {
      hide IsLog, RowsOfExecute, AppendsFor, CallsGrewBy, Spent;
      ghost var w := db.W();
      NothingSpent(w, runId, step);
      var refused := TraceRefusal(runId, step, toolName, ToolNotAllowed);
      out := if refused.Ok? then Raised(ToolNotAllowed) else refused.PropagateFailure();
      if runId in w.runs {
        RefusalIsOneRow(w.stepTrace, db.stepTrace, runId, step, toolName, ToolNotAllowed, out);
        RowsAppend(w.stepTrace, db.stepTrace, runId, step, toolName, out);
      }
    }

    /** What a call for a run that does not exist raises. */
    function ErrorWithoutRun(toolName: string, allowlist: set<string>, operation: Option<string>): Error
      reads registry
    {
      if toolName !in allowlist || toolName !in registry.tools then IntegrityError
      else if registry.tools[toolName].spec.sideEffecting && operation.None? then ValueError
      else RunNotFound
    }

    /** tenacity's loop: another attempt after a transient failure, until the attempt
        number reaches `maxAttempts`; the last error is re-raised as it is. */
    method Retry(runId: string, step: StepName, toolName: string, tool: Tool, kwargs: Kwargs, key: Key)
      returns (out: Outcome<ExecutionResult>, ghost cs: seq<Script>, ghost charged: nat)
      requires Wired() && IsLog(db.stepTrace) && runId in db.runs
      requires key.runId == runId && key.stepName == step
      modifies db`runs, db`stepTrace, db`sideEffects, db`providerEffects, db`calls, db`mishaps
      ensures Booked(old(db.W()), db.W(), runId, step, toolName, maxAttempts, charged, out)
      ensures Handled(old(db.W()), db.W(), tool, kwargs, key, cs, out)
      ensures WentWell(old(db.W()), db.W(), runId, tool, kwargs, key, charged, out)
      ensures IsLog(db.stepTrace) && AppendsFor(old(db.stepTrace), db.stepTrace, runId, step)
      ensures old(db.mishaps) + (if out.Crashed? then 1 else 0) <= db.mishaps
      ensures out != Raised(ToolNotAllowed) && out != Raised(ValueError) && |cs| <= charged
    {
      hide RunOnceSpec, RunMany, LastOutcome, IsLog, OnlyKey, CallsGrewBy, CanSucceed, Delivers, Tracked, Spent, Charged,
           KeyStateIn, LastRowFits, OneRow, RetriedRows, RowsOfExecute, AppendsFor, Booked, RaisesFit, Receipt, Labelled, IsUnknownEmployee,
           Handled, WentWell, HasBudget;
      ghost var w := db.W();
      ghost var id := EffectId(tool.provider, key);
      ghost var s := KeyStateIn(db.sideEffects, db.providerEffects, id);
      cs, charged := [], 0;
      NothingHappens(w, runId, step, toolName, tool, kwargs, key);
      NothingRelabelled(w.sideEffects, key, runId, step, tool.spec.name);
      var attempt := 1;
      while true
        invariant 1 <= attempt <= Max(1, maxAttempts)
        invariant IsLog(db.stepTrace) && w.mishaps <= db.mishaps && runId in db.runs
        invariant RetriedRows(w.stepTrace, db.stepTrace, runId, step, toolName, attempt - 1)
        invariant Spent(w.runs, db.runs, runId, charged) && CallsGrewBy(w.calls, db.calls, runId, charged)
        invariant |cs| <= charged == attempt - 1
        invariant !tool.spec.sideEffecting ==> db.sideEffects == w.sideEffects && db.providerEffects == w.providerEffects
        invariant OnlyKey(w.sideEffects, w.providerEffects, db.sideEffects, db.providerEffects, id)
        invariant Tracked(tool.profile, s, KeyStateIn(db.sideEffects, db.providerEffects, id), Receipt(kwargs, key), cs)
        invariant Labelled(w.sideEffects, db.sideEffects, key, runId, step, tool.spec.name)
        invariant !HasBudget(w.runs[runId]) ==> attempt == 1 && db.W() == w
        invariant CanSucceed(tool, kwargs, Some(key.operation), s) && HasBudget(w.runs[runId]) && db.mishaps == w.mishaps ==>
          attempt == 1 && db.W() == w
        invariant IsUnknownEmployee(tool, kwargs) && HasBudget(w.runs[runId]) && db.mishaps == w.mishaps ==>
          attempt == 1 && db.W() == w
        decreases Max(1, maxAttempts) - attempt
      {
        ghost var v := db.W();
        ghost var sv := KeyStateIn(db.sideEffects, db.providerEffects, id);
        ghost var more, n;
        out, more, n := Attempt(runId, step, toolName, tool, kwargs, key, attempt);
        RowsExtend(w.stepTrace, v.stepTrace, db.stepTrace, runId, step, toolName, attempt, out);
        LabelsStay(w.sideEffects, v.sideEffects, db.sideEffects, key, runId, step, tool.spec.name);
        EffectsCompose(w, v, db.W(), runId, id, charged, n);
        CallsCompose(tool, kwargs, s, sv, KeyStateIn(db.sideEffects, db.providerEffects, id), Receipt(kwargs, key), cs, more);
        cs, charged := cs + more, charged + n;
        RowsAppend(w.stepTrace, db.stepTrace, runId, step, toolName, out);
        if out != Raised(TransientToolError) || attempt >= maxAttempts {
          BooksClose(w, db.W(), runId, step, toolName, maxAttempts, charged, attempt, out);
          HandlingCloses(w, db.W(), tool, kwargs, key, cs, out);
          GoingWellCloses(w, db.W(), runId, tool, kwargs, key, charged, out);
          return;
        }
        attempt := attempt + 1;
      }
    }

    /** The body of one attempt: budget, trace row, charge, call, closing of the row. */
    method Attempt(runId: string, step: StepName, toolName: string, tool: Tool, kwargs: Kwargs, key: Key, attempt: nat)
      returns (out: Outcome<ExecutionResult>, ghost cs: seq<Script>, ghost charged: nat)
      requires Wired() && IsLog(db.stepTrace) && runId in db.runs
      modifies db`runs, db`stepTrace, db`sideEffects, db`providerEffects, db`calls, db`mishaps
      ensures Labelled(old(db.sideEffects), db.sideEffects, key, runId, step, tool.spec.name)
      ensures !HasBudget(old(db.runs)[runId]) ==> out == Raised(BudgetExceeded) || out.Crashed?
      ensures IsUnknownEmployee(tool, kwargs) && HasBudget(old(db.runs)[runId]) && db.mishaps == old(db.mishaps) ==>
        out == Raised(PermanentToolError) && charged == 1
      ensures IsLog(db.stepTrace) && old(db.mishaps) + (if out.Crashed? then 1 else 0) <= db.mishaps
      ensures OneRow(old(db.stepTrace), db.stepTrace, runId, step, toolName)
      ensures LastRowFits(db.stepTrace[|old(db.stepTrace)|], attempt, out)
      ensures RaisesFit(out) && out != Raised(ToolNotAllowed) && out != Raised(ValueError)
      ensures out == Raised(BudgetExceeded) ==> runId in db.runs && !HasBudget(db.runs[runId])
      ensures out == Raised(BudgetExceeded) ==> charged == 0
      ensures out == Raised(SideEffectReconciliationRequired) ==> !tool.profile.queryable
      ensures Spent(old(db.runs), db.runs, runId, charged) && CallsGrewBy(old(db.calls), db.calls, runId, charged)
      ensures |cs| <= charged <= 1
      ensures out.Ok? || (out.Raised? && !IsRefusal(out.error)) ==> charged == 1
      ensures !tool.spec.sideEffecting ==>
        db.sideEffects == old(db.sideEffects) && db.providerEffects == old(db.providerEffects)
      ensures var id := EffectId(tool.provider, key);
        var s := KeyStateIn(old(db.sideEffects), old(db.providerEffects), id);
        && OnlyKey(old(db.sideEffects), old(db.providerEffects), db.sideEffects, db.providerEffects, id)
        && Tracked(tool.profile, s, KeyStateIn(db.sideEffects, db.providerEffects, id), Receipt(kwargs, key), cs)
        && (out.Ok? ==> Delivers(tool, kwargs, s, cs, out.value.AsLedger()) && out.value.attempts == attempt)
        && (CanSucceed(tool, kwargs, Some(key.operation), s) && HasBudget(old(db.runs)[runId]) && db.mishaps == old(db.mishaps) ==>
              out.Ok?)
    {
      hide RunOnceSpec, RunMany, IsLog, OnlyKey, CallsGrewBy, CanSucceed, Delivers, Tracked, Spent, Charged, KeyStateIn, LastRowFits, Labelled, IsUnknownEmployee;
      ghost var w := db.W();
      cs := [];
      NothingHappens(w, runId, step, toolName, tool, kwargs, key);
      NothingRelabelled(w.sideEffects, key, runId, step, tool.spec.name);
      var row;
      row, charged := Open(runId, step, toolName, attempt);
      if !row.Ok? {
        return row.PropagateFailure(), cs, charged;
      }
      var called;
      called, cs := Invoke(runId, step, tool, kwargs, key);
      ghost var withRow := db.stepTrace;
      out := Close(row.value, attempt, called);
      assert db.stepTrace[..|withRow| - 1] == withRow[..|withRow| - 1];
    }

    /** Everything before the call: the budget check, the trace row, the charge. */
    method Open(runId: string, step: StepName, toolName: string, attempt: nat)
      returns (out: Outcome<StepAttempt>, ghost charged: nat)
      requires Wired() && IsLog(db.stepTrace) && runId in db.runs
      modifies db`runs, db`stepTrace, db`mishaps
      ensures !HasBudget(old(db.runs)[runId]) ==> out == Raised(BudgetExceeded) || out.Crashed?
      ensures IsLog(db.stepTrace) && old(db.mishaps) + (if out.Crashed? then 1 else 0) <= db.mishaps
      ensures OneRow(old(db.stepTrace), db.stepTrace, runId, step, toolName)
      ensures runId in db.runs && Spent(old(db.runs), db.runs, runId, charged) && charged <= 1
      ensures out.Ok? ==>
        && charged == 1 && out.value.id == |db.stepTrace|
        && out.value == db.stepTrace[|db.stepTrace| - 1] && out.value.status.Running?
      ensures out.Raised? ==>
        out == Raised(BudgetExceeded) && charged == 0 && !HasBudget(db.runs[runId])
      ensures !out.Ok? ==>
        LastRowFits(db.stepTrace[|db.stepTrace| - 1], attempt, if out.Crashed? then Crashed else Raised(BudgetExceeded))
      ensures HasBudget(old(db.runs)[runId]) && db.mishaps == old(db.mishaps) ==> out.Ok?
    {
      charged := 0;
      var _ :- CheckBudget(runId, step, toolName);
      var row :- trace.StartAttempt(runId, step, Some(toolName));
      charged := 1;
      var _ :- runs.BumpCounters(runId, 0, 1);
      return Ok(row), charged;
    }

    /** Through the ledger for a side effect, straight to the tool for a read. */
    method Invoke(runId: string, step: StepName, tool: Tool, kwargs: Kwargs, key: Key)
      returns (out: Outcome<LedgerOutcome>, ghost cs: seq<Script>)
      requires Wired() && runId in db.runs
      modifies db`sideEffects, db`providerEffects, db`calls, db`mishaps
      ensures Labelled(old(db.sideEffects), db.sideEffects, key, runId, step, tool.spec.name)
      ensures IsUnknownEmployee(tool, kwargs) && db.mishaps == old(db.mishaps) ==> out == Raised(PermanentToolError)
      ensures old(db.mishaps) + (if out.Crashed? then 1 else 0) <= db.mishaps && |cs| <= 1
      ensures CallsGrewBy(old(db.calls), db.calls, runId, 1)
      ensures out.Raised? ==> IsToolSideError(out.error) || out.error.SideEffectReconciliationRequired?
      ensures out == Raised(SideEffectReconciliationRequired) ==> !tool.profile.queryable
      ensures !tool.spec.sideEffecting ==>
        db.sideEffects == old(db.sideEffects) && db.providerEffects == old(db.providerEffects)
      ensures var id := EffectId(tool.provider, key);
        var s := KeyStateIn(old(db.sideEffects), old(db.providerEffects), id);
        && OnlyKey(old(db.sideEffects), old(db.providerEffects), db.sideEffects, db.providerEffects, id)
        && Tracked(tool.profile, s, KeyStateIn(db.sideEffects, db.providerEffects, id), Receipt(kwargs, key), cs)
        && (out.Ok? ==> Delivers(tool, kwargs, s, cs, out.value))
        && (CanSucceed(tool, kwargs, Some(key.operation), s) && db.mishaps == old(db.mishaps) ==> out.Ok?)
    {
      cs := [];
      if tool.spec.sideEffecting {
        ghost var c;
        out, c := InvokeLedger(runId, step, tool, kwargs, key);
        cs := [c];
      } else {
        var read := tool.Read(db, runId, kwargs);
        out := if read.Ok? then Ok(LedgerOutcome(read.value, false, false)) else read.PropagateFailure();
      }
    }

    method InvokeLedger(runId: string, step: StepName, tool: Tool, kwargs: Kwargs, key: Key)
      returns (out: Outcome<LedgerOutcome>, ghost c: Script)
      requires Wired() && runId in db.runs
      modifies db`sideEffects, db`providerEffects, db`calls, db`mishaps
      ensures Labelled(old(db.sideEffects), db.sideEffects, key, runId, step, tool.spec.name)
      ensures old(db.mishaps) + (if out.Crashed? then 1 else 0) <= db.mishaps
      ensures CallsGrewBy(old(db.calls), db.calls, runId, 1)
      ensures out.Raised? ==> IsToolSideError(out.error) || out.error.SideEffectReconciliationRequired?
      ensures out == Raised(SideEffectReconciliationRequired) ==> !tool.profile.queryable
      ensures var id := EffectId(tool.provider, key);
        var s := KeyStateIn(old(db.sideEffects), old(db.providerEffects), id);
        && OnlyKey(old(db.sideEffects), old(db.providerEffects), db.sideEffects, db.providerEffects, id)
        && KeyStateIn(db.sideEffects, db.providerEffects, id) == RunMany(tool.profile, s, [c])
        && c.receipt == Receipt(kwargs, key)
        && out == LastOutcome(tool.profile, s, [c])
        && (Accepts(tool.kind, kwargs) && Truthful(tool.profile) && RowMeansWhatItSays(s) && db.mishaps == old(db.mishaps) ==>
              out.Ok?)
    {
      hide RunOnceSpec;
      ghost var s := KeyStateIn(db.sideEffects, db.providerEffects, EffectId(tool.provider, key));
      out, c := ledger.RunOnce(key, runId, step, tool, kwargs);
      FirstCall(tool.profile, s, c);
      if Truthful(tool.profile) && RowMeansWhatItSays(s) && IsUneventful(c) {
        UneventfulCallCompletes(tool.profile, s, c);
      }
    }

    /** Closes the row the way the call ended; an exception outside the taxonomy leaves
        it open. */
    method Close(row: StepAttempt, attempt: nat, called: Outcome<LedgerOutcome>) returns (out: Outcome<ExecutionResult>)
      requires IsLog(db.stepTrace) && db.stepTrace != [] && row == db.stepTrace[|db.stepTrace| - 1]
      requires row.status.Running? && row.id == |db.stepTrace|
      requires called.Raised? ==> IsToolSideError(called.error) || called.error.SideEffectReconciliationRequired?
      modifies db`stepTrace, db`mishaps
      ensures IsLog(db.stepTrace) && |db.stepTrace| == |old(db.stepTrace)|
      ensures db.stepTrace[..|db.stepTrace| - 1] == old(db.stepTrace)[..|db.stepTrace| - 1]
      ensures var last := db.stepTrace[|db.stepTrace| - 1];
        && IsFor(last, row.runId, row.stepName) && last.toolInvoked == row.toolInvoked
        && LastRowFits(last, attempt, out)
      ensures out.Crashed? ==> called.Crashed? || db.mishaps > old(db.mishaps)
      ensures out.Raised? ==> called == Raised(out.error)
      ensures out.Ok? ==>
        && called.Ok?
        && out.value == ExecutionResult(called.value.result, attempt, called.value.replayed, called.value.reconciled)
      ensures old(db.mishaps) <= db.mishaps
    {
      hide IsLog, CountFor, IsClosed;
      match called {
        case Crashed =>
          return Crashed;
        case Raised(e) =>
          if e.TransientToolError? {
            var _ :- trace.CloseAttempt(row.id, StepStatus.Failed, None, Some(e), RetryDetail(true, attempt));
          } else if IsPermanent(e) || e.SideEffectReconciliationRequired? {
            var _ :- trace.CloseAttempt(row.id, StepStatus.Failed, None, Some(e), RetryDetail(false, attempt));
          }
          return Raised(e);
        case Ok(o) =>
          var _ :- trace.CloseAttempt(row.id, StepStatus.Completed, None, None,
                                      CallDetail(attempt, o.replayed, o.reconciled, o.result));
          return Ok(ExecutionResult(o.result, attempt, o.replayed, o.reconciled));
      }
    }

    /** Refuses a call that would exceed the run's allowance, and says so in the trace. */
    method CheckBudget(runId: string, step: StepName, toolName: string) returns (out: Outcome<()>)
      requires Wired() && IsLog(db.stepTrace)
      modifies db`stepTrace, db`mishaps
      ensures IsLog(db.stepTrace)
      ensures runId !in db.runs ==> out == Raised(RunNotFound) && db.W() == old(db.W())
      ensures runId in db.runs ==>
        (out.Ok? <==> db.runs[runId].toolCallCount < db.runs[runId].maxToolCalls)
      ensures out.Ok? ==> db.stepTrace == old(db.stepTrace) && db.mishaps == old(db.mishaps)
      ensures runId in db.runs && !out.Ok? ==>
        && (out.Crashed? || out == Raised(BudgetExceeded))
        && RefusalTraced(old(db.stepTrace), db.stepTrace, runId, step, toolName, BudgetExceeded, out.Raised?)
      ensures old(db.mishaps) + (if out.Crashed? then 1 else 0) <= db.mishaps
    {
      var run :- runs.Get(runId);
      if run.toolCallCount >= run.maxToolCalls {
        var _ :- TraceRefusal(runId, step, toolName, BudgetExceeded);
        return Raised(BudgetExceeded);
      }
      return Ok(());
    }

    method TraceRefusal(runId: string, step: StepName, toolName: string, error: Error) returns (out: Outcome<()>)
      requires Wired() && IsLog(db.stepTrace)
      modifies db`stepTrace, db`mishaps
      ensures IsLog(db.stepTrace)
      ensures runId !in db.runs ==> out == Raised(IntegrityError) && db.W() == old(db.W())
      ensures runId in db.runs ==>
        !out.Raised? && RefusalTraced(old(db.stepTrace), db.stepTrace, runId, step, toolName, error, out.Ok?)
      ensures old(db.mishaps) + (if out.Crashed? then 1 else 0) == db.mishaps
    {
      hide IsLog, CountFor, IsClosed, RefusalTraced;
      ghost var before := db.stepTrace;
      var row := trace.StartAttempt(runId, step, Some(toolName));
      if runId in db.runs {
        ARefusalIsTraced(before, runId, step, toolName, error);
      }
      if !row.Ok? {
        return row.PropagateFailure();
      }
      var closed := trace.CloseAttempt(row.value.id, StepStatus.Failed, None, Some(error), Guardrail);
      return if closed.Ok? then Ok(()) else Crashed;
    }
  }

  /** What `execute` did to the run's books, and how they explain the way it ended: the
      rows it added, the calls it charged, and the one row more that a refusal leaves. */
  ghost predicate Booked(w: World, u: World, runId: string, step: StepName, toolName: string, maxAttempts: int,
                         charged: nat, out: Outcome<ExecutionResult>) {
    && RowsOfExecute(w.stepTrace, u.stepTrace, runId, step, toolName, out)
    && RaisesFit(out)
    && runId in w.runs && runId in u.runs
    && Spent(w.runs, u.runs, runId, charged) && CallsGrewBy(w.calls, u.calls, runId, charged)
    && charged <= Max(1, maxAttempts)
    && (out.Ok? ==> charged == out.value.attempts)
    && (out.Raised? && !IsRefusal(out.error) ==> charged == |u.stepTrace| - |w.stepTrace|)
    && (out.Raised? && IsRefusal(out.error) ==> charged + 1 == |u.stepTrace| - |w.stepTrace|)
    && (out == Raised(BudgetExceeded) ==> !HasBudget(u.runs[runId]))
    && (out == Raised(TransientToolError) ==> charged == Max(1, maxAttempts))
  }

  /** The guardrail row, opened and closed. */
  lemma ARefusalIsTraced(t: seq<StepAttempt>, runId: string, step: StepName, toolName: string, error: Error)
    ensures var row := Opened(t, runId, step, Some(toolName));
      var open, closed := t + [row], (t + [row])[|t| := Closed(row, StepStatus.Failed, None, Some(error), Guardrail)];
      && RefusalTraced(t, open, runId, step, toolName, error, false)
      && RefusalTraced(t, closed, runId, step, toolName, error, false)
      && RefusalTraced(t, closed, runId, step, toolName, error, true)
  {
  }

  /** Attempt number `attempt` was the last: all of them are booked. */
  lemma BooksClose(w: World, u: World, runId: string, step: StepName, toolName: string, maxAttempts: int,
                   charged: nat, attempt: nat, out: Outcome<ExecutionResult>)
    requires RowsOfExecute(w.stepTrace, u.stepTrace, runId, step, toolName, out) && |u.stepTrace| == |w.stepTrace| + attempt
    requires RaisesFit(out) && out != Raised(ToolNotAllowed) && out != Raised(ValueError)
    requires runId in w.runs && runId in u.runs
    requires Spent(w.runs, u.runs, runId, charged) && CallsGrewBy(w.calls, u.calls, runId, charged)
    requires attempt >= 1 && attempt - 1 <= charged <= attempt <= Max(1, maxAttempts)
    requires out.Ok? ==> out.value.attempts == attempt
    requires out.Ok? || (out.Raised? && !IsRefusal(out.error)) ==> charged == attempt
    requires out == Raised(BudgetExceeded) ==> charged == attempt - 1 && !HasBudget(u.runs[runId])
    requires out == Raised(TransientToolError) ==> attempt >= maxAttempts
    ensures Booked(w, u, runId, step, toolName, maxAttempts, charged, out)
  {
    hide RowsOfExecute, Spent, CallsGrewBy;
  }

  /** What happened to the one key a tool is called under, and where a result comes from. */
  ghost predicate Handled(w: World, u: World, tool: Tool, kwargs: Kwargs, key: Key, cs: seq<Script>, out: Outcome<ExecutionResult>) {
    var id := EffectId(tool.provider, key);
    var s := KeyStateIn(w.sideEffects, w.providerEffects, id);
    && OnlyKey(w.sideEffects, w.providerEffects, u.sideEffects, u.providerEffects, id)
    && Tracked(tool.profile, s, KeyStateIn(u.sideEffects, u.providerEffects, id), Receipt(kwargs, key), cs)
    && Labelled(w.sideEffects, u.sideEffects, key, key.runId, key.stepName, tool.spec.name)
    && (!tool.spec.sideEffecting ==> u.sideEffects == w.sideEffects && u.providerEffects == w.providerEffects)
    && (out.Ok? ==> Delivers(tool, kwargs, s, cs, out.value.AsLedger()))
    && (out == Raised(SideEffectReconciliationRequired) ==> !tool.profile.queryable)
  }

  /** A call without budget is refused; with it, and undisturbed, it succeeds at the first
      attempt, unless the employee it asks for is unknown, which is an error for good. */
  ghost predicate WentWell(w: World, u: World, runId: string, tool: Tool, kwargs: Kwargs, key: Key, charged: nat,
                           out: Outcome<ExecutionResult>)
  {
    runId in w.runs ==>
      var s := KeyStateIn(w.sideEffects, w.providerEffects, EffectId(tool.provider, key));
      && (!HasBudget(w.runs[runId]) ==> out == Raised(BudgetExceeded) || out.Crashed?)
      && (HasBudget(w.runs[runId]) && u.mishaps == w.mishaps && CanSucceed(tool, kwargs, Some(key.operation), s) ==>
            out.Ok? && charged == 1)
      && (HasBudget(w.runs[runId]) && u.mishaps == w.mishaps && IsUnknownEmployee(tool, kwargs) ==>
            out == Raised(PermanentToolError) && charged == 1)
  }

  lemma HandlingCloses(w: World, u: World, tool: Tool, kwargs: Kwargs, key: Key, cs: seq<Script>, out: Outcome<ExecutionResult>)
    requires var id := EffectId(tool.provider, key);
      var s := KeyStateIn(w.sideEffects, w.providerEffects, id);
      && OnlyKey(w.sideEffects, w.providerEffects, u.sideEffects, u.providerEffects, id)
      && Tracked(tool.profile, s, KeyStateIn(u.sideEffects, u.providerEffects, id), Receipt(kwargs, key), cs)
      && (out.Ok? ==> Delivers(tool, kwargs, s, cs, out.value.AsLedger()))
    requires Labelled(w.sideEffects, u.sideEffects, key, key.runId, key.stepName, tool.spec.name)
    requires !tool.spec.sideEffecting ==> u.sideEffects == w.sideEffects && u.providerEffects == w.providerEffects
    requires out == Raised(SideEffectReconciliationRequired) ==> !tool.profile.queryable
    ensures Handled(w, u, tool, kwargs, key, cs, out)
  {
    hide OnlyKey, Tracked, Delivers, Labelled, KeyStateIn, Receipt;
  }

  lemma GoingWellCloses(w: World, u: World, runId: string, tool: Tool, kwargs: Kwargs, key: Key, charged: nat,
                        out: Outcome<ExecutionResult>)
    requires runId in w.runs && (!HasBudget(w.runs[runId]) ==> out == Raised(BudgetExceeded) || out.Crashed?)
    requires var s := KeyStateIn(w.sideEffects, w.providerEffects, EffectId(tool.provider, key));
      HasBudget(w.runs[runId]) && u.mishaps == w.mishaps && CanSucceed(tool, kwargs, Some(key.operation), s) ==>
        out.Ok? && charged == 1
    requires HasBudget(w.runs[runId]) && u.mishaps == w.mishaps && IsUnknownEmployee(tool, kwargs) ==>
      out == Raised(PermanentToolError) && charged == 1
    ensures WentWell(w, u, runId, tool, kwargs, key, charged, out)
  {
    hide KeyStateIn, CanSucceed, HasBudget, IsUnknownEmployee;
  }

  /** Nothing was called, nothing was touched. */
  lemma OnlyTheTraceMoved(w: World, u: World, tool: Tool, kwargs: Kwargs, key: Key, out: Outcome<ExecutionResult>)
    requires u.sideEffects == w.sideEffects && u.providerEffects == w.providerEffects
    requires !out.Ok? && out != Raised(SideEffectReconciliationRequired)
    ensures Handled(w, u, tool, kwargs, key, [], out)
  {
  }

  /** The read tool, asked for somebody the directory does not know. */
  predicate IsUnknownEmployee(tool: Tool, kwargs: Kwargs) {
    !tool.spec.sideEffecting && kwargs.EmployeeArgs? && kwargs.employeeId !in tool.directory
  }

  predicate HasBudget(r: Run) {
    r.toolCallCount < r.maxToolCalls
  }

  function OperationOr(operation: Option<string>): string {
    if operation.Some? then operation.value else ""
  }

  /** The errors that leave `execute`. */
  predicate RaisesFit(out: Outcome<ExecutionResult>) {
    out.Raised? ==>
      || IsToolSideError(out.error)
      || out.error.SideEffectReconciliationRequired?
      || IsRefusal(out.error)
  }

  /** One row was appended, for this step and tool. */
  predicate OneRow(t: seq<StepAttempt>, t': seq<StepAttempt>, runId: string, step: StepName, toolName: string) {
    && |t'| == |t| + 1
    && t'[..|t|] == t
    && IsFor(t'[|t|], runId, step)
    && t'[|t|].toolInvoked == Some(toolName)
  }

  /** `charged` calls were charged to the run, each of them within its allowance. */
  predicate Spent(runs: map<string, Run>, runs': map<string, Run>, runId: string, charged: nat) {
    && runs' == Charged(runs, runId, charged)
    && (charged > 0 ==> runId in runs && runs[runId].toolCallCount + charged <= runs[runId].maxToolCalls)
  }

  /** The key went through these ledger calls, all with one receipt. */
  predicate Tracked(p: ToolProfile, s: KeyState, s': KeyState, receipt: Payload, cs: seq<Script>) {
    s' == RunMany(p, s, cs) && forall i :: 0 <= i < |cs| ==> cs[i].receipt == receipt
  }

  /** `k` failed attempts so far, each one row, each marked retryable. */
  predicate RetriedRows(t: seq<StepAttempt>, t': seq<StepAttempt>, runId: string, step: StepName, toolName: string, k: nat) {
    && |t'| == |t| + k
    && t'[..|t|] == t
    && (forall i :: |t| <= i < |t'| ==>
          IsFor(t'[i], runId, step) && t'[i].toolInvoked == Some(toolName) && IsRetried(t'[i], i - |t| + 1))
  }

  lemma RowsExtend(t: seq<StepAttempt>, t1: seq<StepAttempt>, t2: seq<StepAttempt>, runId: string, step: StepName,
                   toolName: string, attempt: nat, out: Outcome<ExecutionResult>)
    requires attempt >= 1 && RetriedRows(t, t1, runId, step, toolName, attempt - 1)
    requires OneRow(t1, t2, runId, step, toolName) && LastRowFits(t2[|t1|], attempt, out)
    ensures RowsOfExecute(t, t2, runId, step, toolName, out) && |t2| == |t| + attempt
    ensures out == Raised(TransientToolError) ==> RetriedRows(t, t2, runId, step, toolName, attempt)
  {
    assert t2[..|t|] == t2[..|t1|][..|t|];
    forall i | |t| <= i < |t1|
      ensures t2[i] == t1[i]
    {
      assert t2[..|t1|][i] == t1[i];
    }
  }

  lemma RowsAppend(t: seq<StepAttempt>, t': seq<StepAttempt>, runId: string, step: StepName, toolName: string,
                   out: Outcome<ExecutionResult>)
    requires RowsOfExecute(t, t', runId, step, toolName, out)
    ensures AppendsFor(t, t', runId, step)
  {
    assert forall i {:trigger t'[i]} :: 0 <= i < |t| ==> t'[..|t|][i] == t'[i];
  }

  lemma RefusalIsOneRow(t: seq<StepAttempt>, t': seq<StepAttempt>, runId: string, step: StepName, toolName: string,
                        error: Error, out: Outcome<ExecutionResult>)
    requires RefusalTraced(t, t', runId, step, toolName, error, out.Raised?)
    requires out.Crashed? || (out == Raised(error) && error.ToolNotAllowed?)
    ensures RowsOfExecute(t, t', runId, step, toolName, out)
  {
  }

  lemma EffectsCompose(w: World, v: World, u: World, runId: string, id: EffectId, m: nat, n: nat)
    requires runId in w.runs && Spent(w.runs, v.runs, runId, m)
    requires runId in v.runs && Spent(v.runs, u.runs, runId, n)
    requires CallsGrewBy(w.calls, v.calls, runId, m) && CallsGrewBy(v.calls, u.calls, runId, n)
    requires OnlyKey(w.sideEffects, w.providerEffects, v.sideEffects, v.providerEffects, id)
    requires OnlyKey(v.sideEffects, v.providerEffects, u.sideEffects, u.providerEffects, id)
    ensures Spent(w.runs, u.runs, runId, m + n) && CallsGrewBy(w.calls, u.calls, runId, m + n)
    ensures OnlyKey(w.sideEffects, w.providerEffects, u.sideEffects, u.providerEffects, id)
    ensures runId in v.runs && runId in u.runs
  {
  }

  lemma CallsCompose(tool: Tool, kwargs: Kwargs, s: KeyState, s1: KeyState, s2: KeyState, receipt: Payload,
                     cs: seq<Script>, more: seq<Script>)
    requires |more| <= 1
    requires Tracked(tool.profile, s, s1, receipt, cs) && Tracked(tool.profile, s1, s2, receipt, more)
    ensures Tracked(tool.profile, s, s2, receipt, cs + more)
    ensures forall o :: Delivers(tool, kwargs, s1, more, o) ==> Delivers(tool, kwargs, s, cs + more, o)
  {
    hide RunOnceSpec;
    if more == [] {
      assert cs + more == cs;
    } else {
      assert more == [more[0]];
      FirstCall(tool.profile, s1, more[0]);
      OneMoreCall(tool.profile, s, cs, more[0]);
    }
  }

  lemma NothingSpent(w: World, runId: string, step: StepName)
    ensures CallsGrewBy(w.calls, w.calls, runId, 0) && Spent(w.runs, w.runs, runId, 0)
    ensures AppendsFor(w.stepTrace, w.stepTrace, runId, step)
  {
  }

  lemma NothingHappens(w: World, runId: string, step: StepName, toolName: string, tool: Tool, kwargs: Kwargs, key: Key)
    ensures OnlyKey(w.sideEffects, w.providerEffects, w.sideEffects, w.providerEffects, EffectId(tool.provider, key)) && CallsGrewBy(w.calls, w.calls, runId, 0)
    ensures CallsGrewBy(w.calls, w.calls, runId, 1)
    ensures Spent(w.runs, w.runs, runId, 0)
    ensures RetriedRows(w.stepTrace, w.stepTrace, runId, step, toolName, 0)
    ensures var s := KeyStateIn(w.sideEffects, w.providerEffects, EffectId(tool.provider, key));
      Tracked(tool.profile, s, s, Receipt(kwargs, key), [])
  {
  }

  /** Where a successful result comes from: the last ledger call, or the read tool. */
  predicate Delivers(tool: Tool, kwargs: Kwargs, s: KeyState, cs: seq<Script>, r: LedgerOutcome) {
    if tool.spec.sideEffecting then
      cs != [] && LastOutcome(tool.profile, s, cs) == Ok(r)
    else
      && kwargs.EmployeeArgs?
      && kwargs.employeeId in tool.directory
      && r.result == EmployeeRecord(tool.directory[kwargs.employeeId])
  }

  /** The three errors the executor raises without calling anything. */
  predicate IsRefusal(e: Error) {
    e.BudgetExceeded? || e.ToolNotAllowed? || e.ValueError?
  }

  /** A guardrail refusal is one row, closed as failed unless the process died first. */
  predicate RefusalTraced(t: seq<StepAttempt>, t': seq<StepAttempt>, runId: string, step: StepName,
                          toolName: string, error: Error, closed: bool) {
    && |t'| == |t| + 1
    && t'[..|t|] == t
    && IsFor(t'[|t|], runId, step)
    && t'[|t|].toolInvoked == Some(toolName)
    && (closed ==> t'[|t|].status.Failed? && t'[|t|].errorType == Some(error) && t'[|t|].detail == Guardrail)
  }

  /** Real tool calls of the run: at most one per charge; no other run's count moves. */
  ghost predicate CallsGrewBy(calls: map<string, nat>, calls': map<string, nat>, runId: string, charged: nat) {
    && CallsFor(calls, runId) <= CallsFor(calls', runId) <= CallsFor(calls, runId) + charged
    && forall other :: other != runId ==> CallsFor(calls', other) == CallsFor(calls, other)
  }

  /** The call has everything it needs to succeed when nothing goes wrong. */
  predicate CanSucceed(tool: Tool, kwargs: Kwargs, operation: Option<string>, s: KeyState) {
    && Accepts(tool.kind, kwargs)
    && (tool.spec.sideEffecting ==> operation.Some? && Truthful(tool.profile) && RowMeansWhatItSays(s))
    && (!tool.spec.sideEffecting ==> kwargs.EmployeeArgs? && kwargs.employeeId in tool.directory)
  }
}
