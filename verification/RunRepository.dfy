/** The `runs` table: validated status changes and the bounded-execution counters. */
module RunTable {
  import opened Domain
  import opened Durable

  /** The row `set_status` writes: a pause reason does not outlive its pause, a
      failure reason is only ever overwritten by another one. */
  function WithStatus(r: Run, target: RunStatus, pause: Option<PauseReason>, failure: Option<FailureReason>): Run {
    r.(status := target, pauseReason := pause,
       failureReason := if failure.Some? then failure else r.failureReason)
  }

  class RunRepository {
    const db: Store

    constructor (db: Store)
      ensures this.db == db
    {
      this.db := db;
    }

    method Create(runId: string, employeeId: string, maxSteps: int, maxToolCalls: int) returns (out: Outcome<Run>)
      modifies db`runs, db`statusLog, db`mishaps
      ensures runId in old(db.runs) ==> out == Raised(IntegrityError) && db.W() == old(db.W())
      ensures runId !in old(db.runs) ==>
        && !out.Raised?
        && db.runs == old(db.runs)[runId := NewRun(runId, employeeId, maxSteps, maxToolCalls)]
        && db.statusLog == Logged(old(db.statusLog), runId, RunStatus.Pending)
        && (out.Ok? ==> out.value == NewRun(runId, employeeId, maxSteps, maxToolCalls))
      ensures db.mishaps == old(db.mishaps) + if out.Crashed? then 1 else 0
    {
      if runId in db.runs {
        return Raised(IntegrityError);
      }
      db.runs := db.runs[runId := NewRun(runId, employeeId, maxSteps, maxToolCalls)];
      db.statusLog := Logged(db.statusLog, runId, RunStatus.Pending);
      var dead := db.Dies();
      if dead {
        return Crashed;
      }
      out := Get(runId);
    }

    method Get(runId: string) returns (out: Outcome<Run>)
      ensures out == if runId in db.runs then Ok(db.runs[runId]) else Raised(RunNotFound)
    {
      if runId in db.runs {
        return Ok(db.runs[runId]);
      }
      return Raised(RunNotFound);
    }

    method SetStatus(runId: string, target: RunStatus, pause: Option<PauseReason>, failure: Option<FailureReason>)
      returns (out: Outcome<Run>)
      modifies db`runs, db`statusLog, db`mishaps
      ensures out.Raised? ==> db.W() == old(db.W())
      ensures runId !in old(db.runs) ==> out == Raised(RunNotFound)
      ensures runId in old(db.runs) ==>
        (out.Raised? <==> target !in AllowedRunTransitions(old(db.runs)[runId].status))
      ensures runId in old(db.runs) && out.Raised? ==> out.error == InvalidStateTransition
      ensures !out.Raised? ==>
        && runId in old(db.runs)
        && db.runs == old(db.runs)[runId := WithStatus(old(db.runs)[runId], target, pause, failure)]
        && db.statusLog == Logged(old(db.statusLog), runId, target)
        && db.mishaps == old(db.mishaps) + (if out.Crashed? then 1 else 0)
        && (out.Ok? ==> out.value == db.runs[runId])
    {
      if runId !in db.runs {
        return Raised(RunNotFound);
      }
      var move := TransitionRun(db.runs[runId].status, target);
      if move.Raised? {
        return Raised(move.error);
      }
      db.runs := db.runs[runId := WithStatus(db.runs[runId], target, pause, failure)];
      db.statusLog := Logged(db.statusLog, runId, target);
      var dead := db.Dies();
      if dead {
        return Crashed;
      }
      out := Get(runId);
    }

    method RequestCancel(runId: string) returns (out: Outcome<Run>)
      modifies db`runs, db`flaggedAt, db`mishaps
      ensures runId !in old(db.runs) ==> out == Raised(RunNotFound) && db.W() == old(db.W())
      ensures runId in old(db.runs) ==>
        && !out.Raised?
        && db.W() == WithFlag(old(db.W()), runId).(mishaps := db.mishaps)
        && (out.Ok? ==> out.value == db.runs[runId])
      ensures db.mishaps == old(db.mishaps) + if out.Crashed? then 1 else 0
    {
      if runId !in db.runs {
        return Raised(RunNotFound);
      }
      db.RaiseFlag(runId);
      var dead := db.Dies();
      if dead {
        return Crashed;
      }
      out := Get(runId);
    }

    /** The UPDATE touches no row when the run is missing; the read after it raises. */
    method BumpCounters(runId: string, steps: nat, toolCalls: nat) returns (out: Outcome<Run>)
      modifies db`runs, db`mishaps
      ensures runId !in old(db.runs) ==> !out.Ok? && db.runs == old(db.runs)
      ensures runId in old(db.runs) ==>
        && !out.Raised?
        && db.runs == old(db.runs)[runId := Bumped(old(db.runs)[runId], steps, toolCalls)]
      ensures db.mishaps == old(db.mishaps) + if out.Crashed? then 1 else 0
    {
      if runId in db.runs {
        db.runs := db.runs[runId := Bumped(db.runs[runId], steps, toolCalls)];
      }
      var dead := db.Dies();
      if dead {
        return Crashed;
      }
      out := Get(runId);
    }
  }

  function NewRun(runId: string, employeeId: string, maxSteps: int, maxToolCalls: int): Run {
    Run(runId, ThreadId(runId), employeeId, RunStatus.Pending, None, None, false, 0, 0, maxSteps, maxToolCalls)
  }

  function Bumped(r: Run, steps: nat, toolCalls: nat): Run {
    r.(stepCount := r.stepCount + steps, toolCallCount := r.toolCallCount + toolCalls)
  }
}
