/** The bound on the steps of a completed run is exact: each request that is cut short can
    really waste two guards, and any number of them in a row. */
module StepBound {
  import opened Domain
  import opened Durable
  import opened Invariant
  import opened Nodes
  import opened RunHistory
  import opened RunService
  import opened RunTable
  import opened TraceTable

  /** The store an approval leaves whose driver died right behind the gate's guard, its value
      held in memory only. */
  function DeadBehindTheGuard(w: World, runId: string): World
    requires runId in w.runs
  {
    var b := WithVerdict(w, runId, Verdict(RunStatus.Running, None, None));
    b.(runs := b.runs[runId := Bumped(b.runs[runId], 1, 0)], mishaps := w.mishaps + 1)
  }

  /** The store in which a continuation has paused it at the gate again. */
  function PausedAgain(w: World, runId: string): World
    requires runId in w.runs
  {
    WithVerdict(w.(runs := w.runs[runId := Bumped(w.runs[runId], 1, 0)]), runId, Verdict(RunStatus.Paused, Some(HrApproval), None))
  }

  /** Waiting for HR, with `spare` guards left in the budget beyond those it needs. */
  ghost predicate WaitsForHr(w: World, runId: string, directory: map<string, Employee>, spare: nat) {
    && RunInv(w, runId) && PausedFor(w, runId, HrApproval) && CanComplete(w, runId, directory)
    && w.runs[runId].stepCount + GuardsLeft(w, runId) + spare <= w.runs[runId].maxSteps
  }

  /** A RUNNING run that stands at the gate with its pause still the gate's latest row. */
  ghost predicate LeftAtTheGate(w: World, runId: string) {
    && RunInv(w, runId) && InFlight(w, runId) && Pc(w, runId) == 2 && Held(w, runId).None?
    && !w.runs[runId].cancelRequested && w.runs[runId].stepCount < w.runs[runId].maxSteps
    && StepsBefore(2) + 1 <= w.runs[runId].stepCount && LatestIsPaused(w.stepTrace, runId, AwaitHrApproval)
  }

  lemma AGuardIsBookkeeping(w: World, u: World, runId: string)
    requires RunInv(w, runId) && InFlight(w, runId) && Pc(w, runId) < END && w.runs[runId].stepCount < w.runs[runId].maxSteps
    requires w.mishaps <= u.mishaps
    requires u == w.(runs := w.runs[runId := Bumped(w.runs[runId], 1, 0)], mishaps := u.mishaps)
    ensures RunInv(u, runId) && Evolves(w, u, runId) && InFlight(u, runId)
  {
    hide RunInv, Evolves;
    InFlightRunExists(w, runId);
    TheTraceFitsSoFar(w, runId, Pc(w, runId), StateOf(w, runId));
    BookkeepingWorks(w, u, runId);
  }

  lemma DyingBehindTheGuard(w: World, runId: string, req: Request, directory: map<string, Employee>, spare: nat)
    requires WaitsForHr(w, runId, directory, spare) && req.Resolve? && spare >= 2
    ensures var u := DeadBehindTheGuard(w, runId);
      && Served(w, u, runId, req, directory, Crashed)
      && LeftAtTheGate(u, runId)
  {
    hide RunInv, Evolves, LatestIsPaused, Reported, Drove;
    var b, u := WithVerdict(w, runId, Verdict(RunStatus.Running, None, None)), DeadBehindTheGuard(w, runId);
    StartingToRun(w, runId);
    AGuardIsBookkeeping(b, u, runId);
    EvolvesTransitively(w, b, u, runId);
    ThePauseIsInTheTrace(w, runId);
    DyingThereDrives(w, runId, req, directory, spare);
  }

  lemma ThePauseIsInTheTrace(w: World, runId: string)
    requires RunInv(w, runId) && PausedFor(w, runId, HrApproval)
    ensures ThreadId(runId) in w.checkpoints && Pc(w, runId) == 2 && Held(w, runId).None?
    ensures LatestIsPaused(w.stepTrace, runId, AwaitHrApproval) && w.runs[runId].failureReason.None?
    ensures StepsBefore(2) + 1 <= w.runs[runId].stepCount
  {
    hide EffectsFit, LatestIsPaused;
  }

  lemma DyingThereDrives(w: World, runId: string, req: Request, directory: map<string, Employee>, spare: nat)
    requires WaitsForHr(w, runId, directory, spare) && req.Resolve? && spare >= 2
    ensures var u := DeadBehindTheGuard(w, runId);
      Reported(w, u, runId, req, Crashed) && Drove(w, u, runId, req, directory, Crashed)
  {
    hide RunInv, LatestIsPaused, CountFor;
    ThePauseIsInTheTrace(w, runId);
  }

  lemma InFlightHasNoReasons(w: World, runId: string)
    requires RunInv(w, runId) && InFlight(w, runId)
    ensures w.runs[runId].pauseReason.None? && w.runs[runId].failureReason.None? && Pc(w, runId) <= END
  {
  }

  lemma PausingAgain(w: World, runId: string, directory: map<string, Employee>)
    requires LeftAtTheGate(w, runId)
    ensures var u := PausedAgain(w, runId);
      Served(w, u, runId, ResumeCrashed, directory, Ok(u.runs[runId])) && PausedFor(u, runId, HrApproval)
  {
    hide RunInv, Evolves, LatestIsPaused, Reported, Drove;
    var b, u := w.(runs := w.runs[runId := Bumped(w.runs[runId], 1, 0)]), PausedAgain(w, runId);
    AGuardIsBookkeeping(w, b, runId);
    InFlightHasNoReasons(w, runId);
    FittingVerdictsKeep(b, runId, Verdict(RunStatus.Paused, Some(HrApproval), None));
    EvolvesTransitively(w, b, u, runId);
    PausingThereDrives(w, runId, directory);
  }

  lemma PausingThereDrives(w: World, runId: string, directory: map<string, Employee>)
    requires LeftAtTheGate(w, runId)
    ensures var u := PausedAgain(w, runId);
      Reported(w, u, runId, ResumeCrashed, Ok(u.runs[runId])) && Drove(w, u, runId, ResumeCrashed, directory, Ok(u.runs[runId]))
  {
    hide RunInv, LatestIsPaused, CountFor;
    InFlightHasNoReasons(w, runId);
  }

  lemma TwoEntries(w: World, e: Entry, f: Entry, directory: map<string, Employee>) returns (h: seq<Entry>)
    requires Served(w, e.after, e.runId, e.req, directory, e.out) && Served(e.after, f.after, f.runId, f.req, directory, f.out)
    ensures h == [e, f] && IsHistory(w, h, directory) && Final(w, h) == f.after
  {
    hide Served;
    h := [e, f];
    assert ServedAt(w, h, 0, directory) && ServedAt(w, h, 1, directory);
  }

  /** An approval cut short and the continuation after it: two guards gone, nothing gained. */
  lemma TwoGuardsAreWasted(w: World, runId: string, directory: map<string, Employee>, spare: nat) returns (h: seq<Entry>)
    requires WaitsForHr(w, runId, directory, spare) && spare >= 2
    ensures IsHistory(w, h, directory) && |h| == 2 && CutShort(h, runId) == 1
    ensures WaitsForHr(Final(w, h), runId, directory, spare - 2)
    ensures Overrun(Final(w, h), runId) == Overrun(w, runId) + 2
  {
    hide Served, RunInv, LatestIsPaused, IsHistory;
    var req := Resolve(true, "", None);
    var u := DeadBehindTheGuard(w, runId);
    var z := PausedAgain(u, runId);
    DyingBehindTheGuard(w, runId, req, directory, spare);
    PausingAgain(u, runId, directory);
    h := TwoEntries(w, Entry(runId, req, Crashed, u), Entry(runId, ResumeCrashed, Ok(z.runs[runId]), z), directory);
    var first := [Entry(runId, req, Crashed, u)];
    assert Past(h) == first && Past(first) == [];
    assert CutShort(first, runId) == 1;
    LatestEntry(w, h, directory, runId);
    ThePauseIsInTheTrace(w, runId);
  }

  lemma HistoriesJoin(w: World, h: seq<Entry>, more: seq<Entry>, directory: map<string, Employee>)
    requires IsHistory(w, h, directory) && IsHistory(Final(w, h), more, directory)
    ensures IsHistory(w, h + more, directory) && Final(w, h + more) == Final(Final(w, h), more)
  {
    hide Served;
    forall i: nat | i < |h + more|
      ensures ServedAt(w, h + more, i, directory)
    {
      if i < |h| {
        assert ServedAt(w, h, i, directory) && Before(w, h + more, i) == Before(w, h, i);
      } else {
        assert ServedAt(Final(w, h), more, i - |h|, directory);
        assert Before(w, h + more, i) == Before(Final(w, h), more, i - |h|);
      }
    }
  }

  lemma {:induction false} CutShortAddsUp(h: seq<Entry>, more: seq<Entry>, runId: string)
    ensures CutShort(h + more, runId) == CutShort(h, runId) + CutShort(more, runId)
    decreases |more|
  {
    if more == [] {
      assert h + more == h;
    } else {
      CutShortAddsUp(h, Past(more), runId);
      assert Past(h + more) == h + Past(more);
    }
  }

  lemma {:induction false} GuardsAreWastedManyTimes(w: World, runId: string, directory: map<string, Employee>, spare: nat, c: nat)
    returns (h: seq<Entry>)
    requires WaitsForHr(w, runId, directory, spare) && spare >= 2 * c
    ensures IsHistory(w, h, directory) && CutShort(h, runId) == c
    ensures WaitsForHr(Final(w, h), runId, directory, spare - 2 * c)
    ensures Overrun(Final(w, h), runId) == Overrun(w, runId) + 2 * c
    decreases c
  {
    hide WaitsForHr, IsHistory, Overrun;
    h := [];
    if c == 0 {
      NoEntries(w, directory);
    } else {
      var first := TwoGuardsAreWasted(w, runId, directory, spare);
      var rest := GuardsAreWastedManyTimes(Final(w, first), runId, directory, spare - 2, c - 1);
      HistoriesJoin(w, first, rest, directory);
      CutShortAddsUp(first, rest, runId);
      h := first + rest;
    }
  }

  lemma NoEntries(w: World, directory: map<string, Employee>)
    ensures IsHistory(w, [], directory)
  {
  }

  /** For every number `c` of requests cut short there is a life that has them and from which
      every undisturbed continuation completes with exactly 9 + 2c steps. */
  lemma TheStepBoundIsReached(w: World, runId: string, directory: map<string, Employee>, c: nat) returns (h: seq<Entry>)
    requires WaitsForHr(w, runId, directory, 2 * c) && Overrun(w, runId) == 0
    ensures IsHistory(w, h, directory) && CutShort(h, runId) == c
    ensures forall more :: IsHistory(Final(w, h), more, directory) && OnlyContinues(Final(w, h), more, runId) && |more| == 2
                           && Final(Final(w, h), more).mishaps == Final(w, h).mishaps ==>
      && StatusIn(Final(Final(w, h), more), runId).Completed?
      && StepsIn(Final(Final(w, h), more), runId) == 9 + 2 * c
  {
    hide IsHistory, RunInv, OnlyContinues;
    h := GuardsAreWastedManyTimes(w, runId, directory, 2 * c, c);
    var v := Final(w, h);
    ThePauseIsInTheTrace(v, runId);
    forall more | IsHistory(v, more, directory) && OnlyContinues(v, more, runId) && |more| == 2 && Final(v, more).mishaps == v.mishaps
      ensures StatusIn(Final(v, more), runId).Completed? && StepsIn(Final(v, more), runId) == 9 + 2 * c
    {
      RecoveredRunsComplete(v, more, directory, runId);
    }
  }
}
