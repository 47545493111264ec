/** Everything that outlives a process: the SQLite tables, LangGraph's checkpoints,
    the providers' own records. */
module Durable {
  import opened Domain

  /** The value of the whole durable store between two commits. The last five fields
      are history variables, read by no operation: `calls` counts the tool calls
      really made for each run, `statusLog` lists every status written for it,
      `flaggedAt` is where its checkpoint stood when its cancel flag was first raised,
      `answers` lists what the model answered when it was asked for the run, and
      `mishaps` counts the things that went wrong (deaths, tool and model failures,
      cancellations from another process). */
  datatype World = World(
    runs: map<string, Run>,
    stepTrace: seq<StepAttempt>,
    sideEffects: map<Key, SideEffectRecord>,
    providerEffects: map<EffectId, seq<Payload>>,
    checkpoints: map<ThreadId, Checkpoint>,
    calls: map<string, nat>,
    statusLog: map<string, seq<RunStatus>>,
    flaggedAt: map<string, nat>,
    answers: map<string, seq<RawPlan>>,
    mishaps: nat)

  /** The effects a provider has applied under one key, oldest first. */
  function Applied(effects: map<EffectId, seq<Payload>>, id: EffectId): seq<Payload> {
    if id in effects then effects[id] else []
  }

  function CallsFor(calls: map<string, nat>, runId: string): nat {
    if runId in calls then calls[runId] else 0
  }

  function LogFor(statusLog: map<string, seq<RunStatus>>, runId: string): seq<RunStatus> {
    if runId in statusLog then statusLog[runId] else []
  }

  function Logged(statusLog: map<string, seq<RunStatus>>, runId: string, status: RunStatus): map<string, seq<RunStatus>> {
    statusLog[runId := LogFor(statusLog, runId) + [status]]
  }

  function AnswersFor(answers: map<string, seq<RawPlan>>, runId: string): seq<RawPlan> {
    if runId in answers then answers[runId] else []
  }

  function WithAnswer(answers: map<string, seq<RawPlan>>, runId: string, raw: RawPlan): map<string, seq<RawPlan>> {
    answers[runId := AnswersFor(answers, runId) + [raw]]
  }

  function PositionIn(checkpoints: map<ThreadId, Checkpoint>, runId: string): nat {
    if ThreadId(runId) in checkpoints then checkpoints[ThreadId(runId)].pc else 0
  }

  /** The store after the run's cancel flag was raised, for the first time or again. */
  function WithFlag(w: World, runId: string): World
    requires runId in w.runs
  {
    w.(runs := w.runs[runId := w.runs[runId].(cancelRequested := true)],
       flaggedAt := if w.runs[runId].cancelRequested then w.flaggedAt
                    else w.flaggedAt[runId := PositionIn(w.checkpoints, runId)])
  }

  class Store {
    var runs: map<string, Run>
    var stepTrace: seq<StepAttempt>
    var sideEffects: map<Key, SideEffectRecord>
    var providerEffects: map<EffectId, seq<Payload>>
    var checkpoints: map<ThreadId, Checkpoint>
    var calls: map<string, nat>
    var statusLog: map<string, seq<RunStatus>>
    var flaggedAt: map<string, nat>
    var answers: map<string, seq<RawPlan>>
    var mishaps: nat

    ghost function W(): World
      reads this
    {
      World(runs, stepTrace, sideEffects, providerEffects, checkpoints, calls, statusLog, flaggedAt, answers, mishaps)
    }

    constructor ()
      ensures W() == World(map[], [], map[], map[], map[], map[], map[], map[], map[], 0)
    {
      runs, stepTrace, sideEffects := map[], [], map[];
      providerEffects, checkpoints, calls := map[], map[], map[];
      statusLog, flaggedAt, answers, mishaps := map[], map[], map[], 0;
    }

    /** Whether the process dies at this point. Called right after every commit, which
        covers every durable state a death can leave behind. */
    method Dies() returns (dead: bool)
      modifies this`mishaps
      ensures mishaps == old(mishaps) + if dead then 1 else 0
    {
      dead := *;
      if dead {
        mishaps := mishaps + 1;
      }
    }

    /** Another process may have called `request_cancel` for this run. */
    method CancelFromElsewhere(runId: string)
      modifies this`runs, this`flaggedAt, this`mishaps
      ensures W() == old(W())
           || (runId in old(runs) && W() == WithFlag(old(W()), runId).(mishaps := old(mishaps) + 1))
    {
      var requested: bool := *;
      if requested && runId in runs {
        RaiseFlag(runId);
        mishaps := mishaps + 1;
      }
    }

    method RaiseFlag(runId: string)
      requires runId in runs
      modifies this`runs, this`flaggedAt
      ensures W() == WithFlag(old(W()), runId)
    {
      if !runs[runId].cancelRequested {
        flaggedAt := flaggedAt[runId := PositionIn(checkpoints, runId)];
      }
      runs := runs[runId := runs[runId].(cancelRequested := true)];
    }
  }
}
