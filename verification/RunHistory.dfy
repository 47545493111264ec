/** Whole lives of runs: every sequence of requests, on any runs, served or refused, cut
    short by deaths and failures wherever they may happen. The requests on one run do not
    overlap; what comes between two requests of a run is other runs' business. */
module RunHistory {
  import opened Domain
  import opened Durable
  import opened Executor
  import opened Graph
  import opened Invariant
  import opened LedgerProtocol
  import opened RunService
  import opened TraceTable

  datatype Entry = Entry(runId: string, req: Request, out: Outcome<Run>, after: World)

  function Past(h: seq<Entry>): seq<Entry>
    requires h != []
  {
    h[..|h| - 1]
  }

  function Latest(h: seq<Entry>): Entry
    requires h != []
  {
    h[|h| - 1]
  }

  /** The store that entry `i` found. */
  function Before(w: World, h: seq<Entry>, i: nat): World
    requires i <= |h|
  {
    if i == 0 then w else h[i - 1].after
  }

  function Final(w: World, h: seq<Entry>): World {
    Before(w, h, |h|)
  }

  ghost predicate ServedAt(w: World, h: seq<Entry>, i: nat, directory: map<string, Employee>)
    requires i < |h|
  {
    Served(Before(w, h, i), h[i].after, h[i].runId, h[i].req, directory, h[i].out)
  }

  /** Every entry is a request served, or refused, in the store its predecessor left. */
  ghost predicate IsHistory(w: World, h: seq<Entry>, directory: map<string, Employee>) {
    forall i: nat :: i < |h| ==> ServedAt(w, h, i, directory)
  }

  /** A history can be cut anywhere: both parts are histories. */
  lemma HistoriesSplit(w: World, h: seq<Entry>, directory: map<string, Employee>, i: nat)
    requires IsHistory(w, h, directory) && i <= |h|
    ensures IsHistory(w, h[..i], directory) && Final(w, h[..i]) == Before(w, h, i)
    ensures IsHistory(Before(w, h, i), h[i..], directory) && Final(Before(w, h, i), h[i..]) == Final(w, h)
  {
    hide Served;
    forall k: nat | k < i
      ensures ServedAt(w, h[..i], k, directory)
    {
      assert ServedAt(w, h, k, directory) && Before(w, h[..i], k) == Before(w, h, k);
    }
    forall k: nat | k < |h| - i
      ensures ServedAt(Before(w, h, i), h[i..], k, directory)
    {
      assert ServedAt(w, h, i + k, directory) && Before(Before(w, h, i), h[i..], k) == Before(w, h, i + k);
    }
  }

  const EMPTY := World(map[], [], map[], map[], map[], map[], map[], map[], map[], 0)

  lemma EmptyStoreFits(runId: string)
    ensures RunInv(EMPTY, runId)
  {
  }

  // -------------------------------------------------------------- one entry of it

  /** A request on another run leaves this run as it was. */
  predicate Untouched(w: World, u: World, runId: string) {
    && w.mishaps <= u.mishaps
    && (runId in w.runs <==> runId in u.runs) && (runId in w.runs ==> u.runs[runId] == w.runs[runId])
    && LogFor(u.statusLog, runId) == LogFor(w.statusLog, runId)
    && AnswersFor(u.answers, runId) == AnswersFor(w.answers, runId)
    && (runId in w.flaggedAt <==> runId in u.flaggedAt) && (runId in w.flaggedAt ==> u.flaggedAt[runId] == w.flaggedAt[runId])
    && (ThreadId(runId) in w.checkpoints <==> ThreadId(runId) in u.checkpoints)
    && (ThreadId(runId) in w.checkpoints ==> u.checkpoints[ThreadId(runId)] == w.checkpoints[ThreadId(runId)])
    && EffectState(u, runId, Revoke) == EffectState(w, runId, Revoke)
    && EffectState(u, runId, Send) == EffectState(w, runId, Send)
    && EffectState(u, runId, Archiving) == EffectState(w, runId, Archiving)
  }

  lemma ElsewhereMeansUntouched(w: World, u: World, runId: string, other: string)
    requires other != runId && RunInv(w, other) && RunInv(u, runId) && Evolves(w, u, runId)
    ensures Untouched(w, u, other) && RunInv(u, other)
  {
    hide RunInv, EffectState, Appends;
    assert IsLog(u.stepTrace) by {
      InvariantKeepsALog(u, runId);
    }
    RunsAreIsolated(w, u, runId, other);
    assert ThreadId(other).runId != runId;
  }

  lemma InvariantKeepsALog(w: World, runId: string)
    requires RunInv(w, runId)
    ensures IsLog(w.stepTrace)
  {
  }

  lemma PastAndLatest(w: World, h: seq<Entry>, directory: map<string, Employee>)
    requires IsHistory(w, h, directory) && h != []
    ensures IsHistory(w, Past(h), directory) && Final(w, h) == Latest(h).after
    ensures Served(Final(w, Past(h)), Latest(h).after, Latest(h).runId, Latest(h).req, directory, Latest(h).out)
  {
    hide Served;
    HistoriesSplit(w, h, directory, |h| - 1);
    assert ServedAt(w, h, |h| - 1, directory);
  }

  /** The invariant holds after every history, hence at every point of one: a death, too,
      is how an entry can end. */
  lemma {:induction false} TheInvariantHoldsThroughout(w: World, h: seq<Entry>, directory: map<string, Employee>, runId: string)
    requires IsHistory(w, h, directory) && RunInv(w, runId)
    ensures RunInv(Final(w, h), runId)
    decreases |h|
  {
    hide RunInv, Evolves, Untouched, IsHistory, Reported, Drove;
    if h != [] {
      PastAndLatest(w, h, directory);
      TheInvariantHoldsThroughout(w, Past(h), directory, runId);
      if Latest(h).runId != runId {
        ElsewhereMeansUntouched(Final(w, Past(h)), Latest(h).after, Latest(h).runId, runId);
      }
    }
  }

  /** What the last entry of a history was to a run: a request served on it, or nothing. */
  lemma LatestEntry(w: World, h: seq<Entry>, directory: map<string, Employee>, runId: string)
    requires IsHistory(w, h, directory) && RunInv(w, runId)
    ensures RunInv(Final(w, h), runId)
    ensures h != [] ==> IsHistory(w, Past(h), directory) && RunInv(Final(w, Past(h)), runId) && Final(w, h) == Latest(h).after
    ensures h != [] && Latest(h).runId == runId ==>
      Served(Final(w, Past(h)), Latest(h).after, runId, Latest(h).req, directory, Latest(h).out)
    ensures h != [] && Latest(h).runId != runId ==> Untouched(Final(w, Past(h)), Latest(h).after, runId)
  {
    hide RunInv, Evolves, Untouched, IsHistory, Reported, Drove;
    TheInvariantHoldsThroughout(w, h, directory, runId);
    if h != [] {
      PastAndLatest(w, h, directory);
      TheInvariantHoldsThroughout(w, Past(h), directory, runId);
      if Latest(h).runId != runId {
        ElsewhereMeansUntouched(Final(w, Past(h)), Latest(h).after, Latest(h).runId, runId);
      }
    }
  }

  // --------------------------------------------------------------- what only grows

  lemma UntouchedGrows(w: World, u: World, runId: string)
    requires Untouched(w, u, runId)
    ensures Grows(w, u, runId)
  {
    hide EffectState;
  }

  /** Checkpoints never move back, what a node wrote stays as written, budgets stay as
      granted, an applied effect and a completed ledger row never change. */
  lemma {:induction false} RunsOnlyGrow(w: World, h: seq<Entry>, directory: map<string, Employee>, runId: string)
    requires IsHistory(w, h, directory) && RunInv(w, runId)
    ensures Grows(w, Final(w, h), runId)
    decreases |h|
  {
    hide RunInv, Untouched, Grows, OthersUntouched, Appends, Drove, Reported;
    if h == [] {
      EvolvesReflexively(w, runId);
    } else {
      LatestEntry(w, h, directory, runId);
      RunsOnlyGrow(w, Past(h), directory, runId);
      if Latest(h).runId != runId {
        UntouchedGrows(Final(w, Past(h)), Latest(h).after, runId);
      }
      GrowsTransitively(w, Final(w, Past(h)), Final(w, h), runId);
    }
  }

  // ---------------------------------------------------------------- the lifecycle

  lemma UntouchedTransitively(w: World, v: World, u: World, runId: string)
    requires Untouched(w, v, runId) && Untouched(v, u, runId)
    ensures Untouched(w, u, runId)
  {
    hide EffectState;
  }

  /** A run that is over stays exactly as it is: row, checkpoint, ledger, providers. */
  lemma {:induction false} TerminalRunsAreOver(w: World, h: seq<Entry>, directory: map<string, Employee>, runId: string)
    requires IsHistory(w, h, directory) && RunInv(w, runId)
    requires runId in w.runs && IsTerminal(w.runs[runId].status)
    ensures Untouched(w, Final(w, h), runId)
    decreases |h|
  {
    hide RunInv, EffectState, Evolves, Drove;
    if h != [] {
      LatestEntry(w, h, directory, runId);
      TerminalRunsAreOver(w, Past(h), directory, runId);
      UntouchedTransitively(w, Final(w, Past(h)), Final(w, h), runId);
    }
  }

  function StatusIn(w: World, runId: string): RunStatus {
    if runId in w.runs then w.runs[runId].status else RunStatus.Pending
  }

  /** The status log holds every write, those of requests that died half-way included. At
      every point of a history it is a path in the table from PENDING to the present status,
      and it is only ever added to; in particular a terminal status is its last entry. */
  lemma StatusesFollowTheTable(w: World, h: seq<Entry>, directory: map<string, Employee>, runId: string)
    requires IsHistory(w, h, directory) && RunInv(w, runId) && runId in Final(w, h).runs
    ensures var log := LogFor(Final(w, h).statusLog, runId);
      && log != [] && log[0].Pending? && IsRunPath(log) && log[|log| - 1] == StatusIn(Final(w, h), runId)
      && LogFor(w.statusLog, runId) <= log
      && forall i :: 0 <= i < |log| && IsTerminal(log[i]) ==> i == |log| - 1
  {
    hide IsHistory, Started, NotStarted, FlagFits, EffectState, IsRunPath;
    LatestEntry(w, h, directory, runId);
    RunsOnlyGrow(w, h, directory, runId);
    var log := LogFor(Final(w, h).statusLog, runId);
    forall i | 0 <= i < |log| && IsTerminal(log[i])
      ensures i == |log| - 1
    {
      TerminalStatusEndsEveryPath(log, i);
    }
  }

  /** A request that was served to the end wrote exactly the statuses it should: RUNNING and
      the verdict, after PENDING for a new run; a refused one wrote none. */
  lemma RequestsWriteTheirStatuses(w: World, u: World, runId: string, req: Request, directory: map<string, Employee>, out: Outcome<Run>)
    requires RunInv(w, runId) && Served(w, u, runId, req, directory, out)
    ensures var before, after := LogFor(w.statusLog, runId), LogFor(u.statusLog, runId);
      && (!Admits(w, runId, req) ==> after == before)
      && (out.Ok? && req.Start? ==> after == [RunStatus.Pending, RunStatus.Running, u.runs[runId].status])
      && (out.Ok? && (req.Resolve? || req.Sign?) ==> after == before + [RunStatus.Running, u.runs[runId].status])
      && (out.Ok? && req.ResumeCrashed? ==> after == before + [u.runs[runId].status])
  {
    hide Started, NotStarted, FlagFits, EffectState, Accounted, Decided, Delivered, StoodStill, Planned, Taught;
  }

  // --------------------------------------------------------------------- the steps

  /** A request whose process died, or that ended in an exception nobody translates. */
  predicate IsCutShort(out: Outcome<Run>) {
    out.Crashed? || out == Raised(ForeignError)
  }

  function CutShort(h: seq<Entry>, runId: string): nat
    decreases |h|
  {
    if h == [] then 0 else CutShort(Past(h), runId) + if Latest(h).runId == runId && IsCutShort(Latest(h).out) then 1 else 0
  }

  predicate IsLost(w: World, runId: string) {
    runId in w.runs && (w.runs[runId].status.Failed? || w.runs[runId].status.Cancelled?)
  }

  lemma OneRequestWastes(w: World, u: World, runId: string, req: Request, directory: map<string, Employee>, out: Outcome<Run>)
    requires Served(w, u, runId, req, directory, out) && !IsLost(u, runId)
    ensures !IsLost(w, runId)
    ensures Overrun(u, runId) <= Overrun(w, runId) + if IsCutShort(out) then 2 else 0
  {
    hide RunInv, Evolves, Drove, Wrote, RunGrows, EffectState;
    if Admits(w, runId, req) && !req.Cancel? {
      DrivesAccount(w, u, runId, req, directory, out);
    }
  }

  lemma DrivesAccount(w: World, u: World, runId: string, req: Request, directory: map<string, Employee>, out: Outcome<Run>)
    requires Admits(w, runId, req) && !req.Cancel? && Served(w, u, runId, req, directory, out)
    ensures runId in u.runs && Accounted(w, u, runId, req, out)
    ensures out == Raised(EmptyInput) ==> u == w
    ensures RowFor(w, runId, req).cancelRequested ==> StoodStill(w, u, runId, out)
    ensures u.runs[runId].status.Cancelled? ==> u.runs[runId].cancelRequested
  {
    hide RunInv, Evolves, Accounted, Decided, Delivered, StoodStill, Planned, Taught, RecordFetched, Wrote;
  }

  /** Each request that was cut short can waste two guards, no other wastes any. */
  lemma {:induction false} OnlyCutShortRequestsWasteSteps(w: World, h: seq<Entry>, directory: map<string, Employee>, runId: string)
    requires IsHistory(w, h, directory) && RunInv(w, runId) && !IsLost(Final(w, h), runId)
    ensures !IsLost(w, runId)
    ensures Overrun(Final(w, h), runId) <= Overrun(w, runId) + 2 * CutShort(h, runId)
    decreases |h|
  {
    hide RunInv, Served, EffectState;
    if h != [] {
      LatestEntry(w, h, directory, runId);
      if Latest(h).runId == runId {
        OneRequestWastes(Final(w, Past(h)), Latest(h).after, runId, Latest(h).req, directory, Latest(h).out);
      }
      OnlyCutShortRequestsWasteSteps(w, Past(h), directory, runId);
    }
  }

  /** A run that completes has passed nine guards, and at most two more for each request
      that was cut short: exactly nine when none was. */
  lemma StepsOfACompletedRun(w: World, h: seq<Entry>, directory: map<string, Employee>, runId: string)
    requires IsHistory(w, h, directory) && RunInv(w, runId) && runId !in w.runs
    requires StatusIn(Final(w, h), runId).Completed?
    ensures 9 <= Final(w, h).runs[runId].stepCount <= 9 + 2 * CutShort(h, runId)
  {
    hide Served, EffectsFit, StateFits, LatestIsPaused, IsLog;
    LatestEntry(w, h, directory, runId);
    OnlyCutShortRequestsWasteSteps(w, h, directory, runId);
  }

  function StepsIn(w: World, runId: string): nat {
    if runId in w.runs then w.runs[runId].stepCount else 0
  }

  /** A request that drove the graph and was not cut off by a death. */
  predicate DroveOn(v: World, e: Entry, runId: string) {
    && e.runId == runId && Admits(v, runId, e.req) && !e.req.Cancel?
    && !e.out.Crashed? && e.out != Raised(EmptyInput)
  }

  function TimesDriven(w: World, h: seq<Entry>, runId: string): nat
    decreases |h|
  {
    if h == [] then 0
    else TimesDriven(w, Past(h), runId) + if DroveOn(Final(w, Past(h)), Latest(h), runId) then 1 else 0
  }

  lemma OneDriveCosts(w: World, u: World, runId: string, e: Entry, directory: map<string, Employee>)
    requires Served(w, u, runId, e.req, directory, e.out) && DroveOn(w, e, runId)
    ensures runId in u.runs && (IsTerminal(u.runs[runId].status) || StepsIn(w, runId) < StepsIn(u, runId))
    ensures !IsTerminal(StatusIn(w, runId)) && StepsIn(w, runId) <= StepsIn(u, runId)
  {
    hide RunInv, OthersUntouched, Appends, EffectState, Decided, Delivered, StoodStill;
  }

  lemma StepsNeverFall(w: World, u: World, runId: string)
    requires Grows(w, u, runId)
    ensures StepsIn(w, runId) <= StepsIn(u, runId)
  {
    hide EffectState;
  }

  /** The life of a run is finite: a request that drives it pays a guard or finishes it. */
  lemma {:induction false} EveryDriveCostsAStep(w: World, h: seq<Entry>, directory: map<string, Employee>, runId: string)
    requires IsHistory(w, h, directory) && RunInv(w, runId)
    ensures StepsIn(w, runId) + TimesDriven(w, h, runId)
         <= StepsIn(Final(w, h), runId) + if IsTerminal(StatusIn(Final(w, h), runId)) then 1 else 0
    decreases |h|
  {
    hide RunInv, Evolves, Grows, Drove, EffectState;
    if h != [] {
      var v := Final(w, Past(h));
      LatestEntry(w, h, directory, runId);
      EveryDriveCostsAStep(w, Past(h), directory, runId);
      if DroveOn(v, Latest(h), runId) {
        OneDriveCosts(v, Final(w, h), runId, Latest(h), directory);
      } else {
        HistoriesSplit(w, h, directory, |h| - 1);
        RunsOnlyGrow(v, h[|h| - 1..], directory, runId);
        StepsNeverFall(v, Final(w, h), runId);
        if IsTerminal(StatusIn(v, runId)) {
          TerminalRunsAreOver(v, h[|h| - 1..], directory, runId);
        }
      }
    }
  }

  lemma AtMostOneDriveMoreThanSteps(w: World, h: seq<Entry>, directory: map<string, Employee>, runId: string)
    requires IsHistory(w, h, directory) && RunInv(w, runId) && runId !in w.runs && runId in Final(w, h).runs
    ensures TimesDriven(w, h, runId) <= Max(0, Final(w, h).runs[runId].maxSteps) + 1
    ensures exists k: nat :: CreatedAt(w, h, runId, k) && TimesDriven(w, h, runId) <= Max(0, h[k].req.maxSteps) + 1
  {
    hide Served, IsHistory, Started, NotStarted, CreatedAt;
    LatestEntry(w, h, directory, runId);
    EveryDriveCostsAStep(w, h, directory, runId);
    var k := RunsAreWhatWasAskedFor(w, h, directory, runId);
  }

  /** Entry `k` is the request that created the run. */
  predicate CreatedAt(w: World, h: seq<Entry>, runId: string, k: nat) {
    k < |h| && h[k].runId == runId && h[k].req.Start? && runId !in Before(w, h, k).runs
  }

  lemma OneRequestCreates(w: World, u: World, runId: string, req: Request, directory: map<string, Employee>, out: Outcome<Run>)
    requires Served(w, u, runId, req, directory, out) && runId !in w.runs && runId in u.runs
    ensures req == Start(u.runs[runId].employeeId, u.runs[runId].maxSteps, u.runs[runId].maxToolCalls)
  {
    hide RunInv, Evolves, Drove, Wrote;
  }

  lemma OneRequestKeepsTheGrant(w: World, u: World, runId: string)
    requires Grows(w, u, runId) && runId in w.runs
    ensures runId in u.runs && u.runs[runId].employeeId == w.runs[runId].employeeId
    ensures u.runs[runId].maxSteps == w.runs[runId].maxSteps && u.runs[runId].maxToolCalls == w.runs[runId].maxToolCalls
  {
    hide EffectState;
  }

  /** The run's employee and both of its budgets are, at every point, those of the one request
      that created it. */
  lemma {:induction false} RunsAreWhatWasAskedFor(w: World, h: seq<Entry>, directory: map<string, Employee>, runId: string)
    returns (k: nat)
    requires IsHistory(w, h, directory) && RunInv(w, runId) && runId !in w.runs && runId in Final(w, h).runs
    ensures CreatedAt(w, h, runId, k)
    ensures var r := Final(w, h).runs[runId]; h[k].req == Start(r.employeeId, r.maxSteps, r.maxToolCalls)
    decreases |h|
  {
    hide IsHistory, Served, RunInv;
    LatestEntry(w, h, directory, runId);
    var v := Final(w, Past(h));
    if runId in v.runs {
      k := RunsAreWhatWasAskedFor(w, Past(h), directory, runId);
      assert Past(h)[k] == h[k] && Before(w, Past(h), k) == Before(w, h, k);
      HistoriesSplit(w, h, directory, |h| - 1);
      RunsOnlyGrow(v, h[|h| - 1..], directory, runId);
      OneRequestKeepsTheGrant(v, Final(w, h), runId);
    } else {
      k := |h| - 1;
      OneRequestCreates(v, Final(w, h), runId, Latest(h).req, directory, Latest(h).out);
    }
  }

  // ------------------------------------------------------------------ cancellation

  /** Standing where it stood, with the effects it had. */
  predicate Halted(w: World, u: World, runId: string) {
    && StartPc(u, runId) == StartPc(w, runId)
    && EffectState(u, runId, Revoke) == EffectState(w, runId, Revoke)
    && EffectState(u, runId, Send) == EffectState(w, runId, Send)
    && EffectState(u, runId, Archiving) == EffectState(w, runId, Archiving)
  }

  lemma CancelsTouchTheRowAlone(w: World, u: World, runId: string, out: Outcome<Run>)
    requires runId in w.runs && CancelDone(w, u, runId, out)
    ensures u.checkpoints == w.checkpoints && u.sideEffects == w.sideEffects && u.providerEffects == w.providerEffects
  {
    hide WithFlag, WithVerdict;
    var x := if w.runs[runId].status.Running? then WithFlag(w, runId) else WithVerdict(w, runId, Verdict(RunStatus.Cancelled, None, None));
    OnlyMishapsDiffer(u, x, w.mishaps);
    RowsAreNotTables(w, runId);
  }

  lemma OnlyMishapsDiffer(u: World, x: World, mishaps: nat)
    requires u.(mishaps := mishaps) == x
    ensures u.checkpoints == x.checkpoints && u.sideEffects == x.sideEffects && u.providerEffects == x.providerEffects
  {
  }

  lemma RowsAreNotTables(w: World, runId: string)
    requires runId in w.runs
    ensures var x := WithFlag(w, runId);
      x.checkpoints == w.checkpoints && x.sideEffects == w.sideEffects && x.providerEffects == w.providerEffects
    ensures var x := WithVerdict(w, runId, Verdict(RunStatus.Cancelled, None, None));
      x.checkpoints == w.checkpoints && x.sideEffects == w.sideEffects && x.providerEffects == w.providerEffects
  {
  }

  lemma AFlaggedRequestHalts(w: World, u: World, runId: string, req: Request, directory: map<string, Employee>, out: Outcome<Run>)
    requires Served(w, u, runId, req, directory, out) && runId in w.runs && w.runs[runId].cancelRequested
    ensures Halted(w, u, runId)
  {
    hide RunInv, Evolves, Drove, Reported, CancelDone, EffectState;
    if Admits(w, runId, req) && !req.Cancel? {
      DrivesAccount(w, u, runId, req, directory, out);
    } else if Admits(w, runId, req) {
      CancelsTouchTheRowAlone(w, u, runId, out);
    }
    if u.sideEffects == w.sideEffects && u.providerEffects == w.providerEffects {
      SameTablesSameEffects(w, u, runId);
    }
  }

  /** Once the flag is set and no driver is inside a step, the run never moves again: no
      effect of a later step appears, whatever is requested, and only a run that was
      already at its end can still be recorded as completed. */
  lemma {:induction false} FlaggedRunsStandStill(w: World, h: seq<Entry>, directory: map<string, Employee>, runId: string)
    requires IsHistory(w, h, directory) && RunInv(w, runId) && runId in w.runs && w.runs[runId].cancelRequested
    ensures Halted(w, Final(w, h), runId)
    ensures StatusIn(Final(w, h), runId).Completed? ==> StartPc(w, runId) == END
    decreases |h|
  {
    hide EffectState, Served, Evolves, EffectsFit, StateFits, IsLog, LatestIsPaused;
    LatestEntry(w, h, directory, runId);
    if h != [] {
      FlaggedRunsStandStill(w, Past(h), directory, runId);
      RunsOnlyGrow(w, Past(h), directory, runId);
      if Latest(h).runId == runId {
        AFlaggedRequestHalts(Final(w, Past(h)), Latest(h).after, runId, Latest(h).req, directory, Latest(h).out);
      }
    }
  }

  lemma WhereAFlaggedRunStands(w: World, runId: string)
    requires RunInv(w, runId) && runId in w.runs && w.runs[runId].cancelRequested
    ensures runId in w.flaggedAt && StartPc(w, runId) <= w.flaggedAt[runId] + 1
    ensures forall e: Effect :: NodeOf(e) > w.flaggedAt[runId] ==> EffectState(w, runId, e) == FRESH
    ensures StatusIn(w, runId).Completed? ==> w.flaggedAt[runId] >= NodeOf(Archiving)
  {
    hide EffectState, IsLog, LatestIsPaused, LogFits, TraceFits, LabelsFit, PlanFits, StateFits, FailureFits, NoGateRows, ReceiptOf, RowMeans,
         IsSettledWith;
  }

  /** Cancellation, whenever the flag is raised: between requests or while a driver is inside
      a node. At every point from then on the run is at most one node past where it stood at
      that moment, no effect of a later node exists in either store, and it can have COMPLETED
      only if `finalize` was in flight or the checkpoint was at the end. */
  lemma CancelledRunsGoNoFurther(w: World, h: seq<Entry>, directory: map<string, Employee>, runId: string)
    requires IsHistory(w, h, directory) && RunInv(w, runId) && runId in Final(w, h).runs && Final(w, h).runs[runId].cancelRequested
    ensures var u := Final(w, h);
      && runId in u.flaggedAt && StartPc(u, runId) <= u.flaggedAt[runId] + 1
      && (forall e: Effect :: NodeOf(e) > u.flaggedAt[runId] ==> EffectState(u, runId, e) == FRESH)
      && (StatusIn(u, runId).Completed? ==> u.flaggedAt[runId] >= NodeOf(Archiving))
    ensures runId in w.runs && w.runs[runId].cancelRequested ==>
      runId in w.flaggedAt && Final(w, h).flaggedAt[runId] == w.flaggedAt[runId]
  {
    hide IsHistory, RunInv, EffectState;
    LatestEntry(w, h, directory, runId);
    RunsOnlyGrow(w, h, directory, runId);
    WhereAFlaggedRunStands(Final(w, h), runId);
    if runId in w.runs && w.runs[runId].cancelRequested {
      WhereAFlaggedRunStands(w, runId);
    }
  }

  // ------------------------------------------------------------------------- gates

  predicate SameGate(req: Request, again: Request) {
    (req.Resolve? && again.Resolve?) || (req.Sign? && again.Sign?)
  }

  lemma PausedInFrontOfItsGate(w: World, runId: string, req: Request)
    requires RunInv(w, runId) && (req.Resolve? || req.Sign?) && Admits(w, runId, req)
    ensures ThreadId(runId) in w.checkpoints && Pc(w, runId) == if req.Resolve? then 2 else 5
  {
    hide EffectsFit, IsLog, LatestIsPaused;
  }

  lemma AnsweredGatesAreClosed(w: World, u: World, runId: string, req: Request, directory: map<string, Employee>, out: Outcome<Run>,
                               h: seq<Entry>, again: Request)
    requires RunInv(w, runId) && Served(w, u, runId, req, directory, out) && Admits(w, runId, req) && out.Ok?
    requires IsHistory(u, h, directory) && SameGate(req, again)
    ensures !Admits(Final(u, h), runId, again)
  {
    hide RunInv, OthersUntouched, Appends, EffectState, Delivered, StoodStill, ValueUsed;
    PausedInFrontOfItsGate(w, runId, req);
    LatestEntry(u, h, directory, runId);
    if IsTerminal(u.runs[runId].status) {
      TerminalRunsAreOver(u, h, directory, runId);
    } else {
      RunsOnlyGrow(u, h, directory, runId);
      if Admits(Final(u, h), runId, again) {
        PausedInFrontOfItsGate(Final(u, h), runId, again);
      }
    }
  }

  /** A gate is answered once: after a decision (or a signature) that was served to the
      end, every later one on the same run is refused before it reaches the graph. */
  lemma AnAnsweredGateStaysAnswered(w: World, h: seq<Entry>, directory: map<string, Employee>, i: nat, j: nat)
    requires IsHistory(w, h, directory) && i < j < |h| && h[j].runId == h[i].runId && SameGate(h[i].req, h[j].req)
    requires RunInv(w, h[i].runId) && Admits(Before(w, h, i), h[i].runId, h[i].req) && h[i].out.Ok?
    ensures h[j].after == Before(w, h, j) && h[j].out == Raised(InvalidRunOperation)
  {
    hide RunInv, IsHistory, Evolves, Drove, Reported, Admits;
    var runId, u := h[i].runId, Before(w, h, i + 1);
    HistoriesSplit(w, h, directory, i);
    TheInvariantHoldsThroughout(w, h[..i], directory, runId);
    EntriesAreServed(w, h, directory, i);
    HistoriesSplit(w, h, directory, j);
    HistoriesSplit(w, h[..j], directory, i + 1);
    assert Before(w, h[..j], i + 1) == u;
    AnsweredGatesAreClosed(Before(w, h, i), u, runId, h[i].req, directory, h[i].out, h[..j][i + 1..], h[j].req);
    EntriesAreServed(w, h, directory, j);
    ARunOnceCreatedExists(Before(w, h, i), u, h[..j][i + 1..], runId, h[i].req, directory, h[i].out);
  }

  lemma EntriesAreServed(w: World, h: seq<Entry>, directory: map<string, Employee>, i: nat)
    requires IsHistory(w, h, directory) && i < |h|
    ensures Served(Before(w, h, i), Before(w, h, i + 1), h[i].runId, h[i].req, directory, h[i].out)
  {
    hide Served;
    assert ServedAt(w, h, i, directory);
  }

  lemma ARunOnceCreatedExists(w: World, u: World, h: seq<Entry>, runId: string, req: Request, directory: map<string, Employee>, out: Outcome<Run>)
    requires RunInv(w, runId) && Served(w, u, runId, req, directory, out) && Admits(w, runId, req) && IsHistory(u, h, directory)
    ensures runId in Final(u, h).runs
  {
    hide RunInv, IsHistory, EffectState, OthersUntouched, Drove;
    RunsOnlyGrow(u, h, directory, runId);
  }

  /** A run past a gate never pauses there again. */
  lemma APassedGateNeverRecurs(w: World, h: seq<Entry>, directory: map<string, Employee>, runId: string, gate: nat)
    requires IsHistory(w, h, directory) && RunInv(w, runId) && IsGate(gate)
    requires ThreadId(runId) in w.checkpoints && Pc(w, runId) > gate
    ensures !PausedFor(Final(w, h), runId, GateReason(gate))
  {
    hide Served, EffectState, EffectsFit, IsLog, LatestIsPaused;
    LatestEntry(w, h, directory, runId);
    RunsOnlyGrow(w, h, directory, runId);
  }

  // ------------------------------------------------------------- who can finish

  predicate IsRunning(w: World, runId: string) {
    runId in w.runs && w.runs[runId].status.Running?
  }

  /** A run that died between its RUNNING status and its first checkpoint stays as it is:
      there is nothing to continue, and a cancellation only flags it. */
  lemma {:induction false} StrandedRunsStayStranded(w: World, h: seq<Entry>, directory: map<string, Employee>, runId: string)
    requires IsHistory(w, h, directory) && RunInv(w, runId) && IsRunning(w, runId) && ThreadId(runId) !in w.checkpoints
    ensures IsRunning(Final(w, h), runId) && ThreadId(runId) !in Final(w, h).checkpoints
    decreases |h|
  {
    hide RunInv, Evolves, EffectState, Accounted, Decided, Delivered, StoodStill;
    if h != [] {
      LatestEntry(w, h, directory, runId);
      StrandedRunsStayStranded(w, Past(h), directory, runId);
    }
  }

  lemma CancellingOnlyFlags(w: World, u: World, runId: string, directory: map<string, Employee>, out: Outcome<Run>)
    requires Served(w, u, runId, Cancel, directory, out) && IsRunning(w, runId)
    ensures IsRunning(u, runId) && u.runs[runId].cancelRequested && u.checkpoints == w.checkpoints
    ensures w.mishaps <= u.mishaps
  {
    hide RunInv, OthersUntouched, Appends, EffectState, Drove;
  }

  lemma ContinuingEndsAFlaggedRun(w: World, u: World, runId: string, directory: map<string, Employee>, out: Outcome<Run>)
    requires Served(w, u, runId, ResumeCrashed, directory, out) && IsRunning(w, runId) && w.runs[runId].cancelRequested
    ensures w.mishaps <= u.mishaps
    ensures u.mishaps == w.mishaps ==> (IsTerminal(StatusIn(u, runId)) <==> ThreadId(runId) in w.checkpoints)
  {
    hide RunInv, OthersUntouched, Appends, EffectState, Decided, Planned, Delivered, RunGrows;
  }

  /** A RUNNING run whose driver is gone ends, when it is cancelled and continued with nothing
      going wrong, if and only if its first checkpoint was written. */
  lemma ARunningRunEndsIffItHasACheckpoint(w: World, h: seq<Entry>, directory: map<string, Employee>, runId: string)
    requires IsHistory(w, h, directory) && RunInv(w, runId) && IsRunning(w, runId) && Final(w, h).mishaps == w.mishaps
    requires |h| == 2 && h[0].runId == h[1].runId == runId && h[0].req.Cancel? && h[1].req.ResumeCrashed?
    ensures IsTerminal(StatusIn(Final(w, h), runId)) <==> ThreadId(runId) in w.checkpoints
  {
    hide IsHistory, Served, RunInv;
    EntriesAreServed(w, h, directory, 0);
    EntriesAreServed(w, h, directory, 1);
    CancellingOnlyFlags(w, h[0].after, runId, directory, h[0].out);
    ContinuingEndsAFlaggedRun(h[0].after, h[1].after, runId, directory, h[1].out);
  }

  /** Such runs exist: the first request ever made, cut short between the RUNNING status and
      the first checkpoint, leaves one, and no request ever moves it again. */
  lemma AStartCutShortStrands(runId: string, req: Request, directory: map<string, Employee>) returns (h: seq<Entry>)
    requires req.Start?
    ensures IsHistory(EMPTY, h, directory) && |h| == 1 && h[0].runId == runId && h[0].req == req && h[0].out.Crashed?
    ensures IsRunning(Final(EMPTY, h), runId) && ThreadId(runId) !in Final(EMPTY, h).checkpoints
    ensures forall more :: IsHistory(Final(EMPTY, h), more, directory) ==> IsRunning(Final(Final(EMPTY, h), more), runId)
  {
    hide Served, RunInv, IsHistory;
    var u := Begun(EMPTY, runId, req).(mishaps := 1);
    EmptyStoreFits(runId);
    DyingBeforeTheGraph(EMPTY, u, runId, req, directory);
    h := [Entry(runId, req, Crashed, u)];
    OneEntryIsAHistory(EMPTY, h[0], directory);
    LatestEntry(EMPTY, h, directory, runId);
    forall more | IsHistory(u, more, directory)
      ensures IsRunning(Final(u, more), runId)
    {
      StrandedRunsStayStranded(u, more, directory, runId);
    }
  }

  lemma OneEntryIsAHistory(w: World, e: Entry, directory: map<string, Employee>)
    requires Served(w, e.after, e.runId, e.req, directory, e.out)
    ensures IsHistory(w, [e], directory) && Final(w, [e]) == e.after
  {
    hide Served;
    assert ServedAt(w, [e], 0, directory);
  }

  // --------------------------------------------------------- when nothing goes wrong

  /** A value saved at the gate the run stands at. */
  function Held(w: World, runId: string): Option<ResumeValue> {
    if ThreadId(runId) in w.checkpoints then w.checkpoints[ThreadId(runId)].resume else None
  }

  function GuardsLeft(w: World, runId: string): int {
    9 - StepsBefore(StartPc(w, runId)) - (if StatusIn(w, runId).Paused? || Held(w, runId).Some? then 1 else 0)
  }

  function CallsLeft(w: World, runId: string): int {
    4 - CallsBefore(StartPc(w, runId))
  }

  /** The requests that still have to be made. */
  function RequestsLeft(w: World, runId: string): nat {
    var pc, held := StartPc(w, runId), Held(w, runId).Some?;
    if StatusIn(w, runId).Completed? then 0
    else if StatusIn(w, runId).Paused? then if pc == 2 then 2 else 1
    else if pc < 2 || (pc == 2 && !held) then 3
    else if pc < 5 || (pc == 5 && !held) then 2
    else 1
  }

  /** Neither over nor flagged nor stranded, with budget enough for the rest of the way. */
  predicate CanComplete(w: World, runId: string, directory: map<string, Employee>) {
    && runId in w.runs && ThreadId(runId) in w.checkpoints
    && var r := w.runs[runId];
       && (r.status.Running? || r.status.Paused?) && !r.cancelRequested
       && r.stepCount + GuardsLeft(w, runId) <= r.maxSteps
       && r.toolCallCount + CallsLeft(w, runId) <= r.maxToolCalls
       && (StartPc(w, runId) == 0 ==> r.employeeId in directory)
       && (StartPc(w, runId) == 2 && Held(w, runId).Some? ==> Approves(Held(w, runId).value))
  }

  /** The request that takes the run further: approve, sign, or continue. */
  predicate Continues(w: World, runId: string, req: Request) {
    Admits(w, runId, req) && ((req.Resolve? && req.approved) || req.Sign? || req.ResumeCrashed?)
  }

  lemma OneMoreRequest(w: World, u: World, runId: string, req: Request, directory: map<string, Employee>, out: Outcome<Run>)
    requires RunInv(w, runId) && CanComplete(w, runId, directory) && Continues(w, runId, req)
    requires Served(w, u, runId, req, directory, out) && u.mishaps == w.mishaps
    ensures RequestsLeft(w, runId) > 0 && runId in u.runs
    ensures RequestsLeft(u, runId) == RequestsLeft(w, runId) - 1
    ensures if RequestsLeft(w, runId) == 1 then u.runs[runId].status.Completed? else CanComplete(u, runId, directory)
    ensures u.runs[runId].stepCount + GuardsLeft(u, runId) == w.runs[runId].stepCount + GuardsLeft(w, runId)
    ensures u.runs[runId].toolCallCount + CallsLeft(u, runId) == w.runs[runId].toolCallCount + CallsLeft(w, runId)
  {
    hide EffectsFit, StateFits, LatestIsPaused, IsLog, LogFits, FlagFits, EffectState, OthersUntouched, Appends, Planned, StoodStill,
         Accounted, Decided, LogFor, Taught, TraceFits, LabelsFit, PlanFits, RecordFetched, EndsFailed;
  }

  /** Every entry continues the run. */
  predicate OnlyContinues(w: World, h: seq<Entry>, runId: string) {
    forall i: nat :: i < |h| ==> h[i].runId == runId && Continues(Before(w, h, i), runId, h[i].req)
  }

  lemma ThePastContinuesToo(w: World, h: seq<Entry>, runId: string)
    requires OnlyContinues(w, h, runId) && h != []
    ensures OnlyContinues(w, Past(h), runId) && Latest(h).runId == runId && Continues(Final(w, Past(h)), runId, Latest(h).req)
  {
    hide Continues;
    assert forall i: nat :: i < |Past(h)| ==> Past(h)[i] == h[i] && Before(w, Past(h), i) == Before(w, h, i);
    assert Continues(Before(w, h, |h| - 1), runId, Latest(h).req);
  }

  lemma {:induction false} ContinuingStepByStep(w: World, h: seq<Entry>, directory: map<string, Employee>, runId: string)
    requires IsHistory(w, h, directory) && RunInv(w, runId) && CanComplete(w, runId, directory)
    requires OnlyContinues(w, h, runId) && |h| <= RequestsLeft(w, runId) && Final(w, h).mishaps == w.mishaps
    ensures var u := Final(w, h);
      && runId in u.runs && RequestsLeft(u, runId) == RequestsLeft(w, runId) - |h|
      && (if |h| == RequestsLeft(w, runId) then u.runs[runId].status.Completed? else CanComplete(u, runId, directory))
      && u.runs[runId].stepCount + GuardsLeft(u, runId) == w.runs[runId].stepCount + GuardsLeft(w, runId)
      && u.runs[runId].toolCallCount + CallsLeft(u, runId) == w.runs[runId].toolCallCount + CallsLeft(w, runId)
    decreases |h|
  {
    hide IsHistory, RunInv, Served, CanComplete, RequestsLeft, GuardsLeft, CallsLeft, Continues, Untouched, OnlyContinues;
    SomethingIsLeft(w, runId, directory);
    if h != [] {
      LatestEntry(w, h, directory, runId);
      MishapsOnlyGrow(w, Past(h), directory, runId);
      ThePastContinuesToo(w, h, runId);
      ServedGrows(Final(w, Past(h)), Final(w, h), runId, Latest(h).req, directory, Latest(h).out);
      ContinuingStepByStep(w, Past(h), directory, runId);
      OneMoreRequest(Final(w, Past(h)), Final(w, h), runId, Latest(h).req, directory, Latest(h).out);
    }
  }

  lemma SomethingIsLeft(w: World, runId: string, directory: map<string, Employee>)
    requires CanComplete(w, runId, directory)
    ensures RequestsLeft(w, runId) > 0 && runId in w.runs
  {
  }

  lemma MishapsOnlyGrow(w: World, h: seq<Entry>, directory: map<string, Employee>, runId: string)
    requires IsHistory(w, h, directory) && RunInv(w, runId)
    ensures w.mishaps <= Final(w, h).mishaps
  {
    hide IsHistory, RunInv, EffectState;
    RunsOnlyGrow(w, h, directory, runId);
  }

  lemma NothingLeftAtTheEnd(w: World, runId: string)
    requires RunInv(w, runId) && StatusIn(w, runId).Completed?
    ensures GuardsLeft(w, runId) == 0 && CallsLeft(w, runId) == 0
  {
    hide EffectsFit, StateFits, LatestIsPaused, IsLog, LogFits, FlagFits;
  }

  /** Recovery is live: however a run got to where it stands, if it is not lost, flagged or
      stranded and its budgets cover the rest, then continuing it without further mishaps
      completes it in at most three requests, and for exactly the guards and the calls that
      were left. */
  lemma RecoveredRunsComplete(w: World, h: seq<Entry>, directory: map<string, Employee>, runId: string)
    requires IsHistory(w, h, directory) && RunInv(w, runId) && CanComplete(w, runId, directory)
    requires OnlyContinues(w, h, runId) && |h| == RequestsLeft(w, runId) && Final(w, h).mishaps == w.mishaps
    ensures var z := Final(w, h);
      && runId in z.runs && z.runs[runId].status.Completed?
      && z.runs[runId].stepCount == w.runs[runId].stepCount + GuardsLeft(w, runId)
      && z.runs[runId].toolCallCount == w.runs[runId].toolCallCount + CallsLeft(w, runId)
  {
    hide IsHistory, RunInv, RequestsLeft, GuardsLeft, CallsLeft, CanComplete, OnlyContinues;
    ContinuingStepByStep(w, h, directory, runId);
    LatestEntry(w, h, directory, runId);
    NothingLeftAtTheEnd(Final(w, h), runId);
  }

  lemma AnUndisturbedStart(w: World, u: World, runId: string, req: Request, directory: map<string, Employee>, out: Outcome<Run>)
    requires RunInv(w, runId) && runId !in w.runs && Served(w, u, runId, req, directory, out) && u.mishaps == w.mishaps
    requires req.Start? && req.maxSteps >= 9 && req.maxToolCalls >= 4 && req.employeeId in directory
    ensures CanComplete(u, runId, directory) && RequestsLeft(u, runId) == 2
    ensures u.runs[runId].stepCount + GuardsLeft(u, runId) == 9 && u.runs[runId].toolCallCount + CallsLeft(u, runId) == 4
    ensures PausedFor(u, runId, HrApproval)
  {
    hide EffectsFit, StateFits, LatestIsPaused, IsLog, LogFits, FlagFits, EffectState, OthersUntouched, Appends, Planned, StoodStill,
         Accounted, Decided, LogFor, Taught, TraceFits, LabelsFit, PlanFits, RecordFetched, EndsFailed;
    NoCheckpointBeforeTheStart(w, runId);
  }

  /** Start, approve, sign, and nothing goes wrong: the run completes, with nine steps
      and four tool calls, whenever its budgets allow that much. */
  lemma UndisturbedRunsComplete(w: World, h: seq<Entry>, directory: map<string, Employee>, runId: string)
    requires IsHistory(w, h, directory) && RunInv(w, runId) && runId !in w.runs && Final(w, h).mishaps == w.mishaps
    requires |h| == 3 && h[0].runId == runId && OnlyContinues(h[0].after, h[1..], runId)
    requires h[0].req.Start? && h[0].req.maxSteps >= 9 && h[0].req.maxToolCalls >= 4 && h[0].req.employeeId in directory
    ensures var z := Final(w, h);
      && runId in z.runs && z.runs[runId].status.Completed?
      && z.runs[runId].stepCount == 9 && z.runs[runId].toolCallCount == 4
  {
    hide IsHistory, RunInv, Served, CanComplete, RequestsLeft, GuardsLeft, CallsLeft, OnlyContinues;
    EntriesAreServed(w, h, directory, 0);
    HistoriesSplit(w, h, directory, 1);
    LatestEntry(w, h[..1], directory, runId);
    MishapsOnlyGrow(w, h[..1], directory, runId);
    MishapsOnlyGrow(h[0].after, h[1..], directory, runId);
    AnUndisturbedStart(w, h[0].after, runId, h[0].req, directory, h[0].out);
    RecoveredRunsComplete(h[0].after, h[1..], directory, runId);
  }

  lemma ServedGrows(w: World, u: World, runId: string, req: Request, directory: map<string, Employee>, out: Outcome<Run>)
    requires Served(w, u, runId, req, directory, out)
    ensures w.mishaps <= u.mishaps
  {
    hide RunInv, Drove, OthersUntouched, Appends, EffectState;
  }

  lemma NoCheckpointBeforeTheStart(w: World, runId: string)
    requires RunInv(w, runId) && runId !in w.runs
    ensures ThreadId(runId) !in w.checkpoints
  {
  }
}
