/** The `step_trace` table: one row per attempt at a step, numbered per run and step. */
module TraceTable {
  import opened Domain
  import opened Durable

  predicate IsFor(row: StepAttempt, runId: string, step: StepName) {
    row.runId == runId && row.stepName == step
  }

  /** How many rows of a step a trace holds. */
  function CountFor(trace: seq<StepAttempt>, runId: string, step: StepName): nat {
    if trace == [] then 0
    else CountFor(trace[..|trace| - 1], runId, step) + if IsFor(trace[|trace| - 1], runId, step) then 1 else 0
  }

  predicate IsClosed(s: StepStatus) {
    s.Completed? || s.Failed?
  }

  /** The log invariant: ids count up from 1 over the table, attempts count up from 1
      within each (run, step), and no row is ever PENDING or SKIPPED. */
  ghost predicate IsLog(trace: seq<StepAttempt>) {
    forall i {:trigger trace[i]} :: 0 <= i < |trace| ==>
      && trace[i].id == i + 1
      && trace[i].attempt == CountFor(trace[..i], trace[i].runId, trace[i].stepName) + 1
      && !trace[i].status.Pending?
      && !trace[i].status.Skipped?
  }

  /** Row `i` is the last one of its step. */
  predicate IsLastFor(trace: seq<StepAttempt>, runId: string, step: StepName, i: nat) {
    && i < |trace|
    && IsFor(trace[i], runId, step)
    && forall j :: i < j < |trace| ==> !IsFor(trace[j], runId, step)
  }

  ghost predicate LatestIsPaused(trace: seq<StepAttempt>, runId: string, step: StepName) {
    exists i: nat :: IsLastFor(trace, runId, step, i) && trace[i].status.Paused?
  }

  /** What an append by one run does to the log: every row already there keeps its
      value, every row after them is that run's. */
  ghost predicate Appends(before: seq<StepAttempt>, after: seq<StepAttempt>, runId: string) {
    && |before| <= |after|
    && (forall i {:trigger after[i]} :: 0 <= i < |before| ==> after[i] == before[i])
    && (forall i {:trigger after[i]} :: |before| <= i < |after| ==> after[i].runId == runId)
  }

  /** The step's latest row has this status, pause reason and detail. */
  ghost predicate LatestIs(trace: seq<StepAttempt>, runId: string, step: StepName, status: StepStatus,
                           pause: Option<PauseReason>, detail: Detail) {
    exists i: nat :: IsLastFor(trace, runId, step, i) && trace[i].status == status && trace[i].pauseReason == pause
                     && trace[i].detail == detail
  }

  predicate NoRows(trace: seq<StepAttempt>, runId: string, step: StepName) {
    forall i :: 0 <= i < |trace| ==> !IsFor(trace[i], runId, step)
  }

  /** The same, with every new row a row of one step. */
  predicate AppendsFor(before: seq<StepAttempt>, after: seq<StepAttempt>, runId: string, step: StepName) {
    && |before| <= |after|
    && after[..|before|] == before
    && forall i :: |before| <= i < |after| ==> IsFor(after[i], runId, step)
  }

  lemma AppendsForTransitively(t: seq<StepAttempt>, t1: seq<StepAttempt>, t2: seq<StepAttempt>, runId: string, step: StepName)
    requires AppendsFor(t, t1, runId, step) && AppendsFor(t1, t2, runId, step)
    ensures AppendsFor(t, t2, runId, step)
  {
    assert t2[..|t|] == t2[..|t1|][..|t|];
    assert forall i {:trigger t2[i]} :: |t| <= i < |t1| ==> t2[..|t1|][i] == t2[i];
  }

  /** Rows of other steps, and of other runs, do not change what a step's latest row is. */
  lemma LatestRowsStay(t: seq<StepAttempt>, t': seq<StepAttempt>, runId: string, step: StepName)
    requires |t| <= |t'| && t'[..|t|] == t
    requires forall i :: |t| <= i < |t'| ==> !IsFor(t'[i], runId, step)
    ensures forall i: nat :: IsLastFor(t, runId, step, i) <==> IsLastFor(t', runId, step, i)
    ensures LatestIsPaused(t, runId, step) <==> LatestIsPaused(t', runId, step)
    ensures forall status, pause, detail ::
      LatestIs(t, runId, step, status, pause, detail) <==> LatestIs(t', runId, step, status, pause, detail)
    ensures NoRows(t, runId, step) <==> NoRows(t', runId, step)
  {
    assert forall i {:trigger t'[i]} :: 0 <= i < |t| ==> t'[..|t|][i] == t'[i];
    forall i: nat
      ensures IsLastFor(t, runId, step, i) <==> IsLastFor(t', runId, step, i)
    {
    }
  }

  lemma AppendsForAppends(before: seq<StepAttempt>, after: seq<StepAttempt>, runId: string, step: StepName)
    requires AppendsFor(before, after, runId, step)
    ensures Appends(before, after, runId)
  {
    assert forall i {:trigger after[i]} :: 0 <= i < |before| ==> after[..|before|][i] == after[i];
  }

  /** New rows count for their step and for no other. */
  lemma {:induction false} AppendedRowsCount(before: seq<StepAttempt>, after: seq<StepAttempt>, runId: string, step: StepName,
                                             other: StepName)
    requires AppendsFor(before, after, runId, step)
    ensures CountFor(after, runId, other) == CountFor(before, runId, other) + if other == step then |after| - |before| else 0
    decreases |after|
  {
    if |after| == |before| {
      assert after == before;
    } else {
      var last := |after| - 1;
      assert after[..last][..|before|] == before;
      AppendedRowsCount(before, after[..last], runId, step, other);
      assert IsFor(after[last], runId, step);
    }
  }

  lemma {:induction false} CountGrows(trace: seq<StepAttempt>, runId: string, step: StepName, i: nat, j: nat)
    requires i <= j <= |trace|
    ensures CountFor(trace[..i], runId, step) <= CountFor(trace[..j], runId, step)
    decreases j
  {
    if i < j {
      assert trace[..j][..j - 1] == trace[..j - 1];
      CountGrows(trace, runId, step, i, j - 1);
    }
  }

  /** Within one step, a later row has a strictly larger attempt number. */
  lemma LaterRowsHaveLargerAttempts(trace: seq<StepAttempt>, i: nat, j: nat)
    requires IsLog(trace) && i < j < |trace|
    requires IsFor(trace[j], trace[i].runId, trace[i].stepName)
    ensures trace[i].attempt < trace[j].attempt
  {
    assert trace[..i + 1][..i] == trace[..i];
    CountGrows(trace, trace[i].runId, trace[i].stepName, i + 1, j);
  }

  lemma {:induction false} CountIgnoresOutcome(before: seq<StepAttempt>, after: seq<StepAttempt>, runId: string, step: StepName)
    requires |before| == |after|
    requires forall k :: 0 <= k < |before| ==>
      before[k].runId == after[k].runId && before[k].stepName == after[k].stepName
    ensures CountFor(before, runId, step) == CountFor(after, runId, step)
  {
    if before != [] {
      CountIgnoresOutcome(before[..|before| - 1], after[..|after| - 1], runId, step);
    }
  }

  lemma OpeningKeepsTheLog(trace: seq<StepAttempt>, row: StepAttempt)
    requires IsLog(trace)
    requires row.id == |trace| + 1 && row.status.Running?
    requires row.attempt == CountFor(trace, row.runId, row.stepName) + 1
    ensures IsLog(trace + [row])
  {
    var t := trace + [row];
    forall i {:trigger t[i]} | 0 <= i < |t|
      ensures t[i].attempt == CountFor(t[..i], t[i].runId, t[i].stepName) + 1
    {
      assert i <= |trace| && t[..i] == trace[..i];
      assert trace[..|trace|] == trace;
    }
  }

  lemma ClosingKeepsTheLog(trace: seq<StepAttempt>, k: nat, row: StepAttempt)
    requires IsLog(trace) && k < |trace|
    requires row.id == trace[k].id && row.attempt == trace[k].attempt
    requires row.runId == trace[k].runId && row.stepName == trace[k].stepName
    requires !row.status.Pending? && !row.status.Skipped?
    ensures IsLog(trace[k := row])
  {
    var t := trace[k := row];
    forall i {:trigger t[i]} | 0 <= i < |t|
      ensures t[i].attempt == CountFor(t[..i], t[i].runId, t[i].stepName) + 1
    {
      CountIgnoresOutcome(trace[..i], t[..i], t[i].runId, t[i].stepName);
    }
  }

  /** The attempts of a step are exactly 1, 2, ..., n, in id order: every number up to
      the count is some row's, and rows with equal numbers are the same row. */
  lemma {:induction false} AttemptsAreOneToN(trace: seq<StepAttempt>, runId: string, step: StepName, n: nat) returns (i: nat)
    requires IsLog(trace) && 1 <= n <= CountFor(trace, runId, step)
    ensures i < |trace| && IsFor(trace[i], runId, step) && trace[i].attempt == n
    ensures forall j :: 0 <= j < |trace| && IsFor(trace[j], runId, step) && trace[j].attempt == n ==> j == i
  {
    var last := |trace| - 1;
    if IsFor(trace[last], runId, step) && CountFor(trace, runId, step) == n {
      i := last;
    } else {
      var init := trace[..last];
      forall k {:trigger init[k]} | 0 <= k < |init|
        ensures init[k].attempt == CountFor(init[..k], init[k].runId, init[k].stepName) + 1
      {
        assert init[..k] == trace[..k];
      }
      i := AttemptsAreOneToN(init, runId, step, n);
      assert trace[i] == init[i];
    }
    forall j | 0 <= j < |trace| && IsFor(trace[j], runId, step) && trace[j].attempt == n
      ensures j == i
    {
      if i < j {
        LaterRowsHaveLargerAttempts(trace, i, j);
      } else if j < i {
        LaterRowsHaveLargerAttempts(trace, j, i);
      }
    }
  }

  /** The row `start_attempt` inserts. */
  function Opened(trace: seq<StepAttempt>, runId: string, step: StepName, tool: Option<string>): StepAttempt {
    StepAttempt(|trace| + 1, runId, step, CountFor(trace, runId, step) + 1,
                StepStatus.Running, tool, None, None, NoDetail)
  }

  /** What `_close_attempt` writes into a row. */
  function Closed(row: StepAttempt, target: StepStatus, pause: Option<PauseReason>, error: Option<Error>, detail: Detail): StepAttempt {
    row.(status := target, pauseReason := pause, errorType := error,
         detail := if detail.NoDetail? then row.detail else detail)
  }

  class TraceRepository {
    const db: Store

    constructor (db: Store)
      ensures this.db == db
    {
      this.db := db;
    }

    /** Opens attempt n+1. On a log it never meets a status it may not leave; a row for a
        run that does not exist breaks the foreign key and is rolled back. */
    method StartAttempt(runId: string, step: StepName, tool: Option<string>) returns (out: Outcome<StepAttempt>)
      modifies db`stepTrace, db`mishaps
      ensures out.Raised? ==> db.stepTrace == old(db.stepTrace)
      ensures runId !in db.runs ==> out.Raised? && db.W() == old(db.W())
      ensures IsLog(old(db.stepTrace)) && runId !in db.runs ==> out == Raised(IntegrityError)
      ensures IsLog(old(db.stepTrace)) && runId in db.runs ==>
        && !out.Raised?
        && IsLog(db.stepTrace)
        && db.stepTrace == old(db.stepTrace) + [Opened(old(db.stepTrace), runId, step, tool)]
        && (out.Ok? ==> out.value == Opened(old(db.stepTrace), runId, step, tool))
      ensures db.mishaps == old(db.mishaps) + if out.Crashed? then 1 else 0
    {
      var attempt :- NextAttempt(runId, step);
      if runId !in db.runs {
        return Raised(IntegrityError);
      }
      var row := StepAttempt(|db.stepTrace| + 1, runId, step, attempt, StepStatus.Running, tool, None, None, NoDetail);
      if IsLog(db.stepTrace) {
        OpeningKeepsTheLog(db.stepTrace, row);
      }
      db.stepTrace := db.stepTrace + [row];
      var dead := db.Dies();
      if dead {
        return Crashed;
      }
      return Ok(row);
    }

    /** The number of the next attempt, derived from the rows already there. */
    method NextAttempt(runId: string, step: StepName) returns (out: Outcome<nat>)
      ensures !out.Crashed?
      ensures IsLog(db.stepTrace) ==> out == Ok(CountFor(db.stepTrace, runId, step) + 1)
    {
      var latest := LatestForStep(runId, step);
      ghost var last := LatestCarriesTheCount(db.stepTrace, runId, step, latest);
      if latest.None? {
        return Ok(1);
      }
      var move := TransitionStep(latest.value.status, StepStatus.Running);
      if move.Raised? {
        return Raised(move.error);
      }
      return Ok(latest.value.attempt + 1);
    }

    /** Closes the row with the given id; a row already COMPLETED or FAILED is refused. */
    method CloseAttempt(id: nat, target: StepStatus, pause: Option<PauseReason>, error: Option<Error>, detail: Detail)
      returns (out: Outcome<StepAttempt>)
      requires IsLog(db.stepTrace)
      requires target.Completed? || target.Failed? || target.Paused?
      modifies db`stepTrace, db`mishaps
      ensures IsLog(db.stepTrace)
      ensures out.Raised? <==>
        !(1 <= id <= |old(db.stepTrace)| && target in AllowedStepTransitions(old(db.stepTrace)[id - 1].status))
      ensures 1 <= id <= |old(db.stepTrace)| && IsClosed(old(db.stepTrace)[id - 1].status) ==>
        out == Raised(InvalidStateTransition)
      ensures out.Raised? ==> db.stepTrace == old(db.stepTrace)
      ensures !out.Raised? ==>
        db.stepTrace == old(db.stepTrace)[id - 1 := Closed(old(db.stepTrace)[id - 1], target, pause, error, detail)]
      ensures db.mishaps == old(db.mishaps) + if out.Crashed? then 1 else 0
    {
      if !(1 <= id <= |db.stepTrace|) {
        return Raised(KeyError);
      }
      var row := db.stepTrace[id - 1];
      var move := TransitionStep(row.status, target);
      if move.Raised? {
        return Raised(move.error);
      }
      ClosingKeepsTheLog(db.stepTrace, id - 1, Closed(row, target, pause, error, detail));
      db.stepTrace := db.stepTrace[id - 1 := Closed(row, target, pause, error, detail)];
      var dead := db.Dies();
      if dead {
        return Crashed;
      }
      return Ok(db.stepTrace[id - 1]);
    }

    /** `ORDER BY attempt DESC LIMIT 1`; on a log that is also the row added last. */
    method LatestForStep(runId: string, step: StepName) returns (latest: Option<StepAttempt>)
      ensures latest.None? <==> forall i :: 0 <= i < |db.stepTrace| ==> !IsFor(db.stepTrace[i], runId, step)
      ensures latest.Some? ==> latest.value in db.stepTrace && IsFor(latest.value, runId, step)
      ensures latest.Some? ==> forall i :: 0 <= i < |db.stepTrace| && IsFor(db.stepTrace[i], runId, step) ==>
        db.stepTrace[i].attempt <= latest.value.attempt
    {
      latest := None;
      for i := 0 to |db.stepTrace|
        invariant latest.None? <==> forall k :: 0 <= k < i ==> !IsFor(db.stepTrace[k], runId, step)
        invariant latest.Some? ==> latest.value in db.stepTrace && IsFor(latest.value, runId, step)
        invariant latest.Some? ==> forall k :: 0 <= k < i && IsFor(db.stepTrace[k], runId, step) ==>
          db.stepTrace[k].attempt <= latest.value.attempt
      {
        var row := db.stepTrace[i];
        if IsFor(row, runId, step) && (latest.None? || latest.value.attempt < row.attempt) {
          latest := Some(row);
        }
      }
    }
  }

  lemma {:induction false} LastRowOf(trace: seq<StepAttempt>, runId: string, step: StepName) returns (last: Option<nat>)
    ensures last.None? ==>
      && CountFor(trace, runId, step) == 0
      && forall i :: 0 <= i < |trace| ==> !IsFor(trace[i], runId, step)
    ensures last.Some? ==>
      && IsLastFor(trace, runId, step, last.value)
      && CountFor(trace, runId, step) == CountFor(trace[..last.value], runId, step) + 1
  {
    if trace == [] {
      last := None;
    } else if IsFor(trace[|trace| - 1], runId, step) {
      last := Some(|trace| - 1);
    } else {
      var init := trace[..|trace| - 1];
      last := LastRowOf(init, runId, step);
      if last.Some? {
        assert init[..last.value] == trace[..last.value];
      }
    }
  }

  /** On a log, the row with the largest attempt number is the last one, and its
      number is the count. */
  lemma LatestCarriesTheCount(trace: seq<StepAttempt>, runId: string, step: StepName, latest: Option<StepAttempt>)
    returns (last: Option<nat>)
    requires latest.None? <==> forall i :: 0 <= i < |trace| ==> !IsFor(trace[i], runId, step)
    requires latest.Some? ==> latest.value in trace && IsFor(latest.value, runId, step)
    requires latest.Some? ==> forall i :: 0 <= i < |trace| && IsFor(trace[i], runId, step) ==>
      trace[i].attempt <= latest.value.attempt
    ensures last.Some? <==> latest.Some?
    ensures last.None? ==> CountFor(trace, runId, step) == 0
    ensures IsLog(trace) && last.Some? ==>
      && IsLastFor(trace, runId, step, last.value)
      && latest == Some(trace[last.value])
      && latest.value.attempt == CountFor(trace, runId, step)
      && StepStatus.Running in AllowedStepTransitions(latest.value.status)
  {
    last := LastRowOf(trace, runId, step);
    if last.Some? && IsLog(trace) {
      var i :| 0 <= i < |trace| && trace[i] == latest.value;
      if i < last.value {
        LaterRowsHaveLargerAttempts(trace, i, last.value);
      }
    }
  }
}
