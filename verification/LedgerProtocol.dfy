/** One `run_once` call as a function of the adversary's choices, and what holds after
    any number of calls.

    `SideEffectLedger.RunOnce` is proved against `RunOnceSpec`; the theorems here are
    about every sequence of such calls, each free to be hit by tool failures, unreadable
    providers and process death. */
module LedgerProtocol {
  import opened Domain

  datatype LedgerRow = LedgerRow(state: LedgerState, result: Option<Payload>)

  /** The two stores' view of one key: our ledger row, and what the provider applied. */
  datatype KeyState = KeyState(row: Option<LedgerRow>, applied: seq<Payload>)

  const FRESH := KeyState(None, [])

  /** What is known about a tool and its provider.
      `dedups`: a call whose key was applied before applies nothing and returns the old receipt.
      `queryable`: the tool has a `lookup`.
      `steadyLookup`: `lookup` never raises.
      `honestRefusal`: a `PermanentToolError` means that this call applied nothing. */
  datatype ToolProfile = ToolProfile(dedups: bool, queryable: bool, steadyLookup: bool, honestRefusal: bool)

  /** How one tool call goes wrong, if it does: it raises or the process dies, before
      or after the effect landed. */
  datatype Fault =
    | Clean
    | Raises(lands: bool, error: Error)
    | Dies(lands: bool)

  datatype CallResult = CallResult(applied: seq<Payload>, outcome: Outcome<Payload>)

  /** One `tool.call` with this key. `receipt` is what the provider records for the
      arguments of this call. */
  function CallSpec(p: ToolProfile, receipt: Payload, applied: seq<Payload>, fault: Fault): CallResult {
    var known := p.dedups && applied != [];
    var lands := match fault
      case Clean => true
      case Raises(l, e) => l && !(p.honestRefusal && IsPermanent(e))
      case Dies(l) => l;
    var applied' := if lands && !known then applied + [receipt] else applied;
    CallResult(applied', match fault
      case Clean => Ok(if known then applied[0] else receipt)
      case Raises(_, e) => Raised(e)
      case Dies(_) => Crashed)
  }

  /** `_ask_provider`: a tool that cannot be asked and one that raises both read as None. */
  function AskSpec(p: ToolProfile, applied: seq<Payload>, raises: bool): Option<Payload> {
    if !p.queryable || (raises && !p.steadyLookup) || applied == [] then None else Some(applied[0])
  }

  datatype LedgerOutcome = LedgerOutcome(result: Payload, replayed: bool, reconciled: bool)

  /** The commits after which a process may die inside one call. */
  datatype DeathPoint = AfterReserve | AfterAdoption | AfterInProgress | AfterSettling

  datatype Script = Script(
    receipt: Payload,
    lookupRaises: bool,
    fault: Fault,
    secondLookupRaises: bool,
    death: Option<DeathPoint>)

  /** The state after the call, how it ended, and whether it reached `tool.call`. */
  datatype Once = Once(state: KeyState, outcome: Outcome<LedgerOutcome>, called: bool)

  function OrDead<T>(c: Script, point: DeathPoint, outcome: Outcome<T>): Outcome<T> {
    if c.death == Some(point) then Crashed else outcome
  }

  function Settled(s: KeyState, state: LedgerState, result: Option<Payload>): KeyState {
    match s.row
    case None => s
    case Some(r) => s.(row := Some(LedgerRow(state, if result.Some? then result else r.result)))
  }

  /** From `mark_in_progress` to the end: the write-ahead commit, the call, the settling. */
  function AttemptSpec(p: ToolProfile, s: KeyState, c: Script): Once {
    var open := Settled(s, LedgerState.InProgress, None);
    if c.death == Some(AfterInProgress) then
      Once(open, Crashed, false)
    else
      var call := CallSpec(p, c.receipt, open.applied, c.fault);
      var after := open.(applied := call.applied);
      match call.outcome
      case Crashed => Once(after, Crashed, true)
      case Ok(result) =>
        Once(Settled(after, LedgerState.Completed, Some(result)),
             OrDead(c, AfterSettling, Ok(LedgerOutcome(result, false, false))), true)
      case Raised(e) =>
        var landed := AskSpec(p, after.applied, c.secondLookupRaises);
        if landed.Some? then
          Once(Settled(after, LedgerState.Completed, landed),
               OrDead(c, AfterSettling, Ok(LedgerOutcome(landed.value, false, true))), true)
        else if IsPermanent(e) then
          Once(Settled(after, LedgerState.Failed, None), OrDead(c, AfterSettling, Raised(e)), true)
        else
          Once(after, Raised(e), true)
  }

  function RunOnceSpec(p: ToolProfile, s: KeyState, c: Script): Once {
    match s.row
    case None =>
      var reserved := s.(row := Some(LedgerRow(LedgerState.Reserved, None)));
      if c.death == Some(AfterReserve) then Once(reserved, Crashed, false) else AttemptSpec(p, reserved, c)
    case Some(row) =>
      if row.state.Completed? then
        Once(s, Ok(LedgerOutcome(if row.result.Some? then row.result.value else NoResult, true, false)), false)
      else if row.state.InProgress? then
        var landed := AskSpec(p, s.applied, c.lookupRaises);
        if landed.Some? then
          Once(Settled(s, LedgerState.Completed, landed),
               OrDead(c, AfterAdoption, Ok(LedgerOutcome(landed.value, true, true))), false)
        else if !p.queryable then
          Once(s, Raised(SideEffectReconciliationRequired), false)
        else
          AttemptSpec(p, s, c)
      else
        AttemptSpec(p, s, c)
  }

  /** The key's state after a whole life of calls. */
  function RunMany(p: ToolProfile, s: KeyState, cs: seq<Script>): KeyState {
    if cs == [] then s else RunOnceSpec(p, RunMany(p, s, cs[..|cs| - 1]), cs[|cs| - 1]).state
  }

  /** How the last of the calls ended. */
  function LastOutcome(p: ToolProfile, s: KeyState, cs: seq<Script>): Outcome<LedgerOutcome>
    requires cs != []
  {
    RunOnceSpec(p, RunMany(p, s, cs[..|cs| - 1]), cs[|cs| - 1]).outcome
  }

  lemma OneMoreCall(p: ToolProfile, s: KeyState, cs: seq<Script>, c: Script)
    ensures RunMany(p, s, cs + [c]) == RunOnceSpec(p, RunMany(p, s, cs), c).state
    ensures LastOutcome(p, s, cs + [c]) == RunOnceSpec(p, RunMany(p, s, cs), c).outcome
  {
    assert (cs + [c])[..|cs|] == cs;
  }

  lemma FirstCall(p: ToolProfile, s: KeyState, c: Script)
    ensures RunMany(p, s, [c]) == RunOnceSpec(p, s, c).state
    ensures LastOutcome(p, s, [c]) == RunOnceSpec(p, s, c).outcome
  {
    OneMoreCall(p, s, [], c);
    assert [] + [c] == [c];
  }

  // ------------------------------------------------------- the recovery table

  /** The queryable tool whose `lookup` tells the truth: the one the workflow uses. */
  predicate Truthful(p: ToolProfile) {
    p.queryable && p.steadyLookup
  }

  /** The table in the ledger's documentation, read as an invariant. */
  predicate RowMeansWhatItSays(s: KeyState) {
    && |s.applied| <= 1
    && match s.row
       case None => s.applied == []
       case Some(r) =>
         && (r.state.Reserved? || r.state.Failed? ==> s.applied == [])
         && (!r.state.Completed? ==> r.result.None?)
         && (r.state.Completed? ==> s.applied != [] && r.result == Some(s.applied[0]))
  }

  /** The same, with the receipt the provider must hold if it holds one. */
  predicate RowMeans(s: KeyState, receipt: Payload) {
    RowMeansWhatItSays(s) && (s.applied != [] ==> s.applied == [receipt])
  }

  predicate IsSettledWith(s: KeyState, receipt: Payload) {
    s == KeyState(Some(LedgerRow(LedgerState.Completed, Some(receipt))), [receipt])
  }

  lemma OneCallKeepsTheMeaning(p: ToolProfile, s: KeyState, c: Script)
    requires Truthful(p) && RowMeansWhatItSays(s)
    ensures RowMeansWhatItSays(RunOnceSpec(p, s, c).state)
    ensures s.applied != [] ==> RunOnceSpec(p, s, c).state.applied == s.applied
    ensures RunOnceSpec(p, s, c).state.applied == s.applied || RunOnceSpec(p, s, c).state.applied == [c.receipt]
    ensures RunOnceSpec(p, s, c).outcome.Ok? ==>
      IsSettledWith(RunOnceSpec(p, s, c).state, RunOnceSpec(p, s, c).outcome.value.result)
  {
  }

  /** After every commit of every life of a key: absent, reserved and failed rows mean
      nothing landed, a completed row holds exactly what landed, and an effect that
      landed has a row that is in progress or completed. */
  lemma {:induction false} RowsMeanWhatTheySay(p: ToolProfile, cs: seq<Script>)
    requires Truthful(p)
    ensures RowMeansWhatItSays(RunMany(p, FRESH, cs))
    ensures RunMany(p, FRESH, cs).applied != [] ==>
      RunMany(p, FRESH, cs).row.Some?
      && (RunMany(p, FRESH, cs).row.value.state.InProgress? || RunMany(p, FRESH, cs).row.value.state.Completed?)
  {
    if cs != [] {
      RowsMeanWhatTheySay(p, cs[..|cs| - 1]);
      OneCallKeepsTheMeaning(p, RunMany(p, FRESH, cs[..|cs| - 1]), cs[|cs| - 1]);
    }
  }

  /** With one receipt for every call, as the workflow guarantees, it is the only thing
      that can ever be applied, stored or returned. */
  lemma {:induction false} OneReceiptForever(p: ToolProfile, s: KeyState, cs: seq<Script>, receipt: Payload)
    requires Truthful(p) && RowMeans(s, receipt)
    requires forall i :: 0 <= i < |cs| ==> cs[i].receipt == receipt
    ensures RowMeans(RunMany(p, s, cs), receipt)
    ensures s.applied != [] ==> RunMany(p, s, cs).applied == s.applied
    ensures IsSettledWith(s, receipt) ==> RunMany(p, s, cs) == s
    ensures cs != [] && LastOutcome(p, s, cs).Ok? ==>
      IsSettledWith(RunMany(p, s, cs), receipt) && LastOutcome(p, s, cs).value.result == receipt
  {
    if cs != [] {
      OneReceiptForever(p, s, cs[..|cs| - 1], receipt);
      OneCallKeepsTheMeaning(p, RunMany(p, s, cs[..|cs| - 1]), cs[|cs| - 1]);
    }
  }

  /** A completed row absorbs: whatever the tool is like and whatever goes wrong, the
      tool is not touched, nothing changes, and the stored result comes back. */
  lemma {:induction false} CompletedAbsorbs(p: ToolProfile, s: KeyState, cs: seq<Script>, c: Script)
    requires s.row.Some? && s.row.value.state.Completed? && s.row.value.result.Some?
    ensures RunMany(p, s, cs) == s
    ensures RunOnceSpec(p, RunMany(p, s, cs), c) == Once(s, Ok(LedgerOutcome(s.row.value.result.value, true, false)), false)
  {
    if cs != [] {
      CompletedAbsorbs(p, s, cs[..|cs| - 1], cs[|cs| - 1]);
    }
  }

  /** Recovery is live: with nothing going wrong, one call completes from whatever state
      a crash left behind. */
  predicate IsUneventful(c: Script) {
    c.fault.Clean? && c.death.None?
  }

  lemma UneventfulCallCompletes(p: ToolProfile, s: KeyState, c: Script)
    requires Truthful(p) && RowMeansWhatItSays(s) && IsUneventful(c)
    ensures RunOnceSpec(p, s, c).outcome.Ok?
    ensures RunOnceSpec(p, s, c).outcome.value.result == (if s.applied != [] then s.applied[0] else c.receipt)
    ensures !RunOnceSpec(p, s, c).outcome.value.replayed <==> s.applied == []
  {
  }

  // ------------------------------------------------------------ at most once

  /** The tools for which the ledger's promise holds. */
  predicate IsSafe(p: ToolProfile) {
    || p.dedups
    || Truthful(p)
    || (!p.queryable && p.honestRefusal)
  }

  ghost predicate AtMostOnce(p: ToolProfile) {
    forall cs: seq<Script> :: |RunMany(p, FRESH, cs).applied| <= 1
  }

  /** What a life of calls keeps for a safe tool. */
  predicate NotTwice(p: ToolProfile, s: KeyState) {
    && |s.applied| <= 1
    && (Truthful(p) ==> RowMeansWhatItSays(s))
    && (!p.queryable && !p.dedups ==>
         (s.applied != [] ==> s.row.Some? && (s.row.value.state.InProgress? || s.row.value.state.Completed?)))
  }

  lemma OneCallIsNotTwice(p: ToolProfile, s: KeyState, c: Script)
    requires IsSafe(p) && NotTwice(p, s)
    ensures NotTwice(p, RunOnceSpec(p, s, c).state)
  {
    if Truthful(p) {
      OneCallKeepsTheMeaning(p, s, c);
    } else if p.dedups {
      assert |RunOnceSpec(p, s, c).state.applied| <= 1;
    } else {
      assert !p.queryable && p.honestRefusal;
    }
  }

  lemma {:induction false} SafeToolsAreNeverAppliedTwice(p: ToolProfile, cs: seq<Script>)
    requires IsSafe(p)
    ensures NotTwice(p, RunMany(p, FRESH, cs))
  {
    if cs != [] {
      SafeToolsAreNeverAppliedTwice(p, cs[..|cs| - 1]);
      OneCallIsNotTwice(p, RunMany(p, FRESH, cs[..|cs| - 1]), cs[|cs| - 1]);
    }
  }

  /** The life that applies an effect twice through a tool outside `IsSafe`: a queryable
      one dies after landing and its next lookup raises; one that cannot be queried
      raises a permanent error after landing, which closes the row as failed. */
  function DoubleApplication(p: ToolProfile, receipt: Payload): seq<Script> {
    if p.queryable then
      [Script(receipt, false, Dies(true), false, None), Script(receipt, true, Clean, false, None)]
    else
      [Script(receipt, false, Raises(true, PermanentToolError), false, None), Script(receipt, false, Clean, false, None)]
  }

  lemma UnsafeToolsCanBeAppliedTwice(p: ToolProfile, receipt: Payload)
    requires !IsSafe(p)
    ensures RunMany(p, FRESH, DoubleApplication(p, receipt)).applied == [receipt, receipt]
  {
    var cs := DoubleApplication(p, receipt);
    assert cs[..2] == cs && cs[..1][..0] == [];
    assert RunMany(p, FRESH, cs[..0]) == FRESH;
    var first := RunOnceSpec(p, FRESH, cs[0]);
    assert cs[..1][0] == cs[0];
    assert RunMany(p, FRESH, cs[..1]) == first.state;
    assert first.state.applied == [receipt];
    assert RunOnceSpec(p, first.state, cs[1]).state.applied == [receipt] + [receipt];
  }

  /** "At most once per key", exactly: over all lives of a key the effect is applied at
      most once if and only if the provider dedups, or it can be asked and always
      answers, or it cannot be asked but its permanent errors mean nothing landed. */
  lemma AtMostOnceIffSafe(p: ToolProfile)
    ensures AtMostOnce(p) <==> IsSafe(p)
  {
    if IsSafe(p) {
      forall cs: seq<Script>
        ensures |RunMany(p, FRESH, cs).applied| <= 1
      {
        SafeToolsAreNeverAppliedTwice(p, cs);
      }
    } else {
      UnsafeToolsCanBeAppliedTwice(p, NoResult);
      assert |RunMany(p, FRESH, DoubleApplication(p, NoResult)).applied| == 2;
    }
  }

  /** The documentation says a provider that raises while being asked keeps the ledger
      on the fail-closed path. The code does so only for tools without `lookup`: an
      effect that landed in an interrupted call is called again exactly when the tool
      has a `lookup` and it raised. */
  lemma RaisingLookupIsReadAsNotLanded(p: ToolProfile, s: KeyState, c: Script)
    requires s.row.Some? && s.row.value.state.InProgress? && s.applied != []
    requires c.death.None?
    ensures RunOnceSpec(p, s, c).called <==> p.queryable && !p.steadyLookup && c.lookupRaises
    ensures RunOnceSpec(p, s, c) == Once(s, Raised(SideEffectReconciliationRequired), false) <==> !p.queryable
  {
  }

  // ------------------------------------------------- tools that cannot be asked

  function CallsMade(p: ToolProfile, s: KeyState, cs: seq<Script>): nat {
    if cs == [] then 0
    else
      CallsMade(p, s, cs[..|cs| - 1])
      + if RunOnceSpec(p, RunMany(p, s, cs[..|cs| - 1]), cs[|cs| - 1]).called then 1 else 0
  }

  /** Calls that came back with a `PermanentToolError` of the tool's. */
  function RefusalsSeen(p: ToolProfile, s: KeyState, cs: seq<Script>): nat {
    if cs == [] then 0
    else
      var last := cs[|cs| - 1];
      RefusalsSeen(p, s, cs[..|cs| - 1])
      + if RunOnceSpec(p, RunMany(p, s, cs[..|cs| - 1]), last).called
           && last.fault.Raises? && IsPermanent(last.fault.error) then 1 else 0
  }

  /** Without a `lookup`, the tool is called at most once more than the number of times
      it said no; the row that an interrupted call leaves closes the key for good. */
  lemma {:induction false} UnqueryableToolsFailClosed(p: ToolProfile, cs: seq<Script>)
    requires !p.queryable
    ensures var s := RunMany(p, FRESH, cs);
      && CallsMade(p, FRESH, cs) <= 1 + RefusalsSeen(p, FRESH, cs)
      && (s.row.None? || s.row.value.state.Reserved? || s.row.value.state.Failed? ==>
            CallsMade(p, FRESH, cs) <= RefusalsSeen(p, FRESH, cs))
    ensures var s := RunMany(p, FRESH, cs);
      s.row.Some? && s.row.value.state.InProgress? ==>
        forall c :: RunOnceSpec(p, s, c) == Once(s, Raised(SideEffectReconciliationRequired), false)
  {
    if cs != [] {
      UnqueryableToolsFailClosed(p, cs[..|cs| - 1]);
    }
  }
}
