/** Trace rows for the steps that do not go through the executor. */
module Tracing {
  import opened Domain
  import opened TraceTable

  /** Handle for an open step attempt. */
  class Span {
    const attemptId: nat
    var detail: Detail

    constructor (attemptId: nat)
      ensures this.attemptId == attemptId && detail == NoDetail
    {
      this.attemptId, detail := attemptId, NoDetail;
    }

    method SetDetail(fields: Detail)
      modifies this
      ensures detail == fields
    {
      detail := fields;
    }
  }

  /** The span's row is the last of the log, and open. */
  ghost predicate IsOpenSpan(trace: seq<StepAttempt>, span: Span, runId: string, step: StepName) {
    && trace != []
    && span.attemptId == |trace|
    && IsFor(trace[|trace| - 1], runId, step)
    && trace[|trace| - 1].status.Running?
  }

  /** What a whole span leaves: one row, completed or failed, with its detail. */
  predicate SpanTraced(t: seq<StepAttempt>, t': seq<StepAttempt>, runId: string, step: StepName, tool: Option<string>,
                       detail: Detail, error: Option<Error>) {
    && |t'| == |t| + 1
    && t'[..|t|] == t
    && IsFor(t'[|t|], runId, step)
    && t'[|t|].toolInvoked == tool && t'[|t|].detail == detail && t'[|t|].errorType == error
    && t'[|t|].pauseReason.None?
    && t'[|t|].status == if error.Some? then StepStatus.Failed else StepStatus.Completed
  }

  /** The start of a `with step_span(...)` block. */
  method OpenSpan(trace: TraceRepository, runId: string, step: StepName, tool: Option<string>) returns (out: Outcome<Span>)
    requires IsLog(trace.db.stepTrace)
    modifies trace.db`stepTrace, trace.db`mishaps
    ensures IsLog(trace.db.stepTrace)
    ensures runId !in trace.db.runs ==> out == Raised(IntegrityError) && trace.db.W() == old(trace.db.W())
    ensures runId in trace.db.runs ==> !out.Raised?
    ensures runId in trace.db.runs ==>
      |trace.db.stepTrace| == |old(trace.db.stepTrace)| + 1
      && trace.db.stepTrace[..|old(trace.db.stepTrace)|] == old(trace.db.stepTrace)
      && IsFor(trace.db.stepTrace[|old(trace.db.stepTrace)|], runId, step)
      && trace.db.stepTrace[|old(trace.db.stepTrace)|].toolInvoked == tool
      && trace.db.stepTrace[|old(trace.db.stepTrace)|].detail.NoDetail?
      && trace.db.stepTrace[|old(trace.db.stepTrace)|].status.Running?
    ensures out.Ok? ==> runId in trace.db.runs && fresh(out.value) && IsOpenSpan(trace.db.stepTrace, out.value, runId, step) && out.value.detail == NoDetail
    ensures trace.db.mishaps == old(trace.db.mishaps) + if out.Crashed? then 1 else 0
  {
    var row :- trace.StartAttempt(runId, step, tool);
    var span := new Span(row.id);
    return Ok(span);
  }

  /** The end of the block: completed on a normal exit, failed with the exception's class
      otherwise. The caller re-raises. */
  method CloseSpan(trace: TraceRepository, span: Span, ghost runId: string, ghost step: StepName, error: Option<Error>)
    returns (out: Outcome<()>)
    requires IsLog(trace.db.stepTrace) && IsOpenSpan(trace.db.stepTrace, span, runId, step)
    modifies trace.db`stepTrace, trace.db`mishaps
    ensures IsLog(trace.db.stepTrace) && !out.Raised?
    ensures var last := |old(trace.db.stepTrace)| - 1;
      trace.db.stepTrace == old(trace.db.stepTrace)[last :=
        Closed(old(trace.db.stepTrace)[last], if error.Some? then StepStatus.Failed else StepStatus.Completed, None, error, span.detail)]
    ensures trace.db.mishaps == old(trace.db.mishaps) + if out.Crashed? then 1 else 0
  {
    var _ :- trace.CloseAttempt(span.attemptId, if error.Some? then StepStatus.Failed else StepStatus.Completed, None, error, span.detail);
    return Ok(());
  }
}
