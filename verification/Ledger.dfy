/** The idempotency ledger: `run_once`, its recovery table, and the provider query. */
module Ledger {
  import opened Domain
  import opened Durable
  import opened LedgerProtocol
  import opened SideEffectTable
  import opened Tools

  function RowIn(rows: map<Key, SideEffectRecord>, key: Key): Option<LedgerRow> {
    if key in rows then Some(LedgerRow(rows[key].state, rows[key].result)) else None
  }

  /** One key as the ledger table and the provider's own records show it. */
  function KeyStateIn(rows: map<Key, SideEffectRecord>, effects: map<EffectId, seq<Payload>>, id: EffectId): KeyState {
    KeyState(RowIn(rows, id.key), Applied(effects, id))
  }

  /** Nothing but this key changed hands. */
  ghost predicate OnlyKey(rows: map<Key, SideEffectRecord>, effects: map<EffectId, seq<Payload>>,
                          rows': map<Key, SideEffectRecord>, effects': map<EffectId, seq<Payload>>, id: EffectId) {
    && (forall k :: k != id.key ==> (k in rows <==> k in rows'))
    && (forall k :: k != id.key && k in rows ==> rows[k] == rows'[k])
    && (forall other :: other != id ==> Applied(effects, other) == Applied(effects', other))
  }

  /** The store went from `w` to `u` as `once` says, and no other key was touched. */
  ghost predicate Ran(w: World, u: World, key: Key, runId: string, tool: Tool, kwargs: Kwargs, c: Script, once: Once) {
    var id := EffectId(tool.provider, key);
    && KeyStateIn(u.sideEffects, u.providerEffects, id) == once.state
    && u.calls == (if once.called then w.calls[runId := CallsFor(w.calls, runId) + 1] else w.calls)
    && OnlyKey(w.sideEffects, w.providerEffects, u.sideEffects, u.providerEffects, id)
    && c.receipt == Receipt(kwargs, key)
    && w.mishaps + (if once.outcome.Crashed? then 1 else 0) <= u.mishaps
    && (u.mishaps == w.mishaps && Accepts(tool.kind, kwargs) ==> IsUneventful(c))
    && (once.outcome.Raised? ==>
          IsToolSideError(once.outcome.error) || (once.outcome.error == SideEffectReconciliationRequired && !tool.profile.queryable))
  }

  function StateFor(w: World, tool: Tool, key: Key): KeyState {
    KeyStateIn(w.sideEffects, w.providerEffects, EffectId(tool.provider, key))
  }

  /** One `run_once` did what `RunOnceSpec` says for these choices. */
  ghost predicate RanOnce(w: World, u: World, key: Key, runId: string, tool: Tool, kwargs: Kwargs, c: Script,
                          out: Outcome<LedgerOutcome>) {
    var once := RunOnceSpec(tool.profile, StateFor(w, tool, key), c);
    out == once.outcome && Ran(w, u, key, runId, tool, kwargs, c, once)
  }

  /** The same for the part from `mark_in_progress` on. */
  ghost predicate Attempted(w: World, u: World, key: Key, runId: string, tool: Tool, kwargs: Kwargs, c: Script,
                            out: Outcome<LedgerOutcome>) {
    var once := AttemptSpec(tool.profile, StateFor(w, tool, key), c);
    out == once.outcome && Ran(w, u, key, runId, tool, kwargs, c, once)
  }

  /** The key has a fresh reservation in `v` that it has not in `w`, and nothing else differs. */
  ghost predicate IsReservedIn(w: World, v: World, key: Key) {
    && RowIn(w.sideEffects, key) == None
    && RowIn(v.sideEffects, key) == Some(LedgerRow(LedgerState.Reserved, None))
    && (forall k :: k != key ==> (k in w.sideEffects <==> k in v.sideEffects))
    && (forall k :: k != key && k in w.sideEffects ==> w.sideEffects[k] == v.sideEffects[k])
    && v.providerEffects == w.providerEffects && v.calls == w.calls && v.mishaps == w.mishaps
  }

  /** Whoever made the reservation, the call goes on as `RunOnceSpec` says from before it. */
  lemma ReservationsDoNotShow(w: World, v: World, u: World, key: Key, runId: string, tool: Tool, kwargs: Kwargs, c: Script,
                              out: Outcome<LedgerOutcome>)
    requires IsReservedIn(w, v, key) && c.death != Some(AfterReserve)
    requires RanOnce(v, u, key, runId, tool, kwargs, c, out) || Attempted(v, u, key, runId, tool, kwargs, c, out)
    ensures RanOnce(w, u, key, runId, tool, kwargs, c, out)
  {
    hide AttemptSpec, Receipt, Accepts, IsUneventful, IsToolSideError;
  }

  /** Where the recovery table falls through to the tool, it is the attempt that decides. */
  lemma ProceedingIsAttempting(w: World, v: World, u: World, key: Key, runId: string, tool: Tool, kwargs: Kwargs, c: Script,
                               raised: bool, out: Outcome<LedgerOutcome>)
    requires v == w.(mishaps := v.mishaps) && w.mishaps <= v.mishaps && key in w.sideEffects
    requires Attempted(v, u, key, runId, tool, kwargs, c, out)
    requires !c.lookupRaises && c.death != Some(AfterReserve) && c.death != Some(AfterAdoption)
    requires var s := StateFor(w, tool, key);
      && !s.row.value.state.Completed?
      && (s.row.value.state.InProgress? ==> tool.profile.queryable && AskSpec(tool.profile, s.applied, raised).None?)
    ensures RanOnce(w, u, key, runId, tool, kwargs, c.(lookupRaises := raised), out)
  {
    hide Receipt, Accepts, IsToolSideError, OnlyKey, CallSpec;
  }

  lemma OnlyKeyTransitively(w: World, v: World, u: World, id: EffectId)
    requires OnlyKey(w.sideEffects, w.providerEffects, v.sideEffects, v.providerEffects, id)
    requires OnlyKey(v.sideEffects, v.providerEffects, u.sideEffects, u.providerEffects, id)
    ensures OnlyKey(w.sideEffects, w.providerEffects, u.sideEffects, u.providerEffects, id)
  {
  }

  lemma DyingOnTheReservation(w: World, v: World, u: World, key: Key, runId: string, tool: Tool, kwargs: Kwargs)
    requires IsReservedIn(w, v, key) && u == v.(mishaps := u.mishaps) && v.mishaps < u.mishaps
    ensures RanOnce(w, u, key, runId, tool, kwargs, Script(Receipt(kwargs, key), false, Clean, false, Some(AfterReserve)), Crashed)
  {
    hide AttemptSpec, Receipt, Accepts, IsToolSideError;
  }

  /** How deep CPython lets calls nest by default. */
  const RECURSION_LIMIT: nat := 1000

  /** A row that was there keeps saying whose it is; a new one says it as it was told. */
  predicate Labelled(rows: map<Key, SideEffectRecord>, rows': map<Key, SideEffectRecord>, key: Key,
                     runId: string, step: StepName, tool: string) {
    && KeepsLabel(rows, rows', key)
    && (key !in rows && key in rows' ==> HasLabel(rows'[key], key, runId, step, tool))
  }

  predicate KeepsLabel(rows: map<Key, SideEffectRecord>, rows': map<Key, SideEffectRecord>, key: Key) {
    key in rows ==>
      key in rows' && HasLabel(rows'[key], rows[key].key, rows[key].runId, rows[key].stepName, rows[key].toolName)
  }

  predicate HasLabel(row: SideEffectRecord, key: Key, runId: string, step: StepName, tool: string) {
    row.key == key && row.runId == runId && row.stepName == step && row.toolName == tool
  }

  lemma LabelsStay(rows: map<Key, SideEffectRecord>, rows1: map<Key, SideEffectRecord>, rows2: map<Key, SideEffectRecord>,
                   key: Key, runId: string, step: StepName, tool: string)
    requires Labelled(rows, rows1, key, runId, step, tool) && Labelled(rows1, rows2, key, runId, step, tool)
    ensures Labelled(rows, rows2, key, runId, step, tool)
  {
  }

  lemma KeptLabelsFit(rows: map<Key, SideEffectRecord>, rows': map<Key, SideEffectRecord>, key: Key,
                      runId: string, step: StepName, tool: string)
    requires key in rows && KeepsLabel(rows, rows', key)
    ensures Labelled(rows, rows', key, runId, step, tool)
  {
  }

  lemma NothingRelabelled(rows: map<Key, SideEffectRecord>, key: Key, runId: string, step: StepName, tool: string)
    ensures Labelled(rows, rows, key, runId, step, tool)
  {
  }

  lemma ReservationsAreLabelled(rows: map<Key, SideEffectRecord>, key: Key, runId: string, step: StepName, tool: string)
    requires key !in rows
    ensures Labelled(rows, rows[key := NewRow(key, runId, step, tool)], key, runId, step, tool)
  {
  }

  class SideEffectLedger {
    const store: SideEffectRepository
    const db: Store := store.db

    constructor (store: SideEffectRepository)
      ensures this.store == store
    {
      this.store := store;
    }

    /** Performs `tool.call` at most once for `key`. The ghost result says which choices
        of the adversary this call met; given those, state and outcome are `RunOnceSpec`'s.
        Without a row and without a run to refer to, no row can be inserted: the call
        re-enters itself until the interpreter's recursion limit, and has done nothing. */
    method RunOnce(key: Key, runId: string, stepName: StepName, tool: Tool, kwargs: Kwargs)
      returns (out: Outcome<LedgerOutcome>, ghost c: Script)
      modifies db`sideEffects, db`providerEffects, db`calls, db`mishaps
      ensures Labelled(old(db.sideEffects), db.sideEffects, key, runId, stepName, tool.spec.name)
      ensures key in old(db.sideEffects) || runId in db.runs ==>
        RanOnce(old(db.W()), db.W(), key, runId, tool, kwargs, c, out)
      ensures key !in old(db.sideEffects) && runId !in db.runs ==> out == Raised(ForeignError) && db.W() == old(db.W())
      ensures key in old(db.sideEffects) ==> c.death != Some(AfterReserve)
    {
      out, c := Enter(key, runId, stepName, tool, kwargs, RECURSION_LIMIT);
    }

    method Enter(key: Key, runId: string, stepName: StepName, tool: Tool, kwargs: Kwargs, frames: nat)
      returns (out: Outcome<LedgerOutcome>, ghost c: Script)
      modifies db`sideEffects, db`providerEffects, db`calls, db`mishaps
      ensures Labelled(old(db.sideEffects), db.sideEffects, key, runId, stepName, tool.spec.name)
      ensures key in old(db.sideEffects) && frames > 0 ==> RanOnce(old(db.W()), db.W(), key, runId, tool, kwargs, c, out)
      ensures key !in old(db.sideEffects) && runId in db.runs && frames > 1 ==>
        RanOnce(old(db.W()), db.W(), key, runId, tool, kwargs, c, out)
      ensures key !in old(db.sideEffects) && runId !in db.runs ==> out == Raised(ForeignError) && db.W() == old(db.W())
      ensures key in old(db.sideEffects) ==> c.death != Some(AfterReserve)
      decreases frames
    {
      hide RanOnce, Attempted, Labelled, KeepsLabel;
      ghost var w := db.W();
      NothingRelabelled(w.sideEffects, key, runId, stepName, tool.spec.name);
      if frames == 0 {
        return Raised(ForeignError), Script(Receipt(kwargs, key), false, Clean, false, None);
      }
      var existing := store.Get(key);
      if existing.Some? {
        out, c := RunExisting(existing.value, key, runId, tool, kwargs);
        KeptLabelsFit(w.sideEffects, db.sideEffects, key, runId, stepName, tool.spec.name);
        return;
      }
      ReservationsAreLabelled(w.sideEffects, key, runId, stepName, tool.spec.name);
      store.ReservedElsewhere(key, runId, stepName, tool.spec.name);
      ghost var v := db.W();
      var reserved := store.TryReserve(key, runId, stepName, tool.spec.name);
      if reserved.Crashed? {
        c := Script(Receipt(kwargs, key), false, Clean, false, Some(AfterReserve));
        DyingOnTheReservation(w, db.W().(mishaps := w.mishaps), db.W(), key, runId, tool, kwargs);
        return Crashed, c;
      }
      if reserved.value.None? {
        // Somebody took the key between the read and the insert: their row is there now.
        out, c := Enter(key, runId, stepName, tool, kwargs, frames - 1);
        LabelsStay(w.sideEffects, v.sideEffects, db.sideEffects, key, runId, stepName, tool.spec.name);
        if key in v.sideEffects && frames > 1 {
          ReservationsDoNotShow(w, v, db.W(), key, runId, tool, kwargs, c, out);
        }
        return;
      }
      v := db.W();
      out, c := Attempt(key, runId, tool, kwargs);
      KeptLabelsFit(v.sideEffects, db.sideEffects, key, runId, stepName, tool.spec.name);
      LabelsStay(w.sideEffects, v.sideEffects, db.sideEffects, key, runId, stepName, tool.spec.name);
      ReservationsDoNotShow(w, v, db.W(), key, runId, tool, kwargs, c, out);
    }

    /** `run_once` on a key that has a row. */
    method RunExisting(existing: SideEffectRecord, key: Key, runId: string, tool: Tool, kwargs: Kwargs)
      returns (out: Outcome<LedgerOutcome>, ghost c: Script)
      requires key in db.sideEffects && db.sideEffects[key] == existing
      modifies db`sideEffects, db`providerEffects, db`calls, db`mishaps
      ensures KeepsLabel(old(db.sideEffects), db.sideEffects, key)
      ensures RanOnce(old(db.W()), db.W(), key, runId, tool, kwargs, c, out)
      ensures c.death != Some(AfterReserve)
    {
      hide AttemptSpec, CallSpec, Accepts, Receipt;
      ghost var w := db.W();
      var resumed, raised, died := ResumeExisting(existing, key, tool);
      if resumed != Ok(None) {
        c := Script(Receipt(kwargs, key), raised, Clean, false, if died then Some(AfterAdoption) else None);
        return if resumed.Ok? then Ok(resumed.value.value) else resumed.PropagateFailure(), c;
      }
      ghost var v, first := db.W(), raised;
      out, c := Attempt(key, runId, tool, kwargs);
      ProceedingIsAttempting(w, v, db.W(), key, runId, tool, kwargs, c, first, out);
      c := c.(lookupRaises := first);
    }

    /** Write-ahead, call, settle. */
    method Attempt(key: Key, runId: string, tool: Tool, kwargs: Kwargs)
      returns (out: Outcome<LedgerOutcome>, ghost c: Script)
      requires key in db.sideEffects
      modifies db`sideEffects, db`providerEffects, db`calls, db`mishaps
      ensures KeepsLabel(old(db.sideEffects), db.sideEffects, key)
      ensures Attempted(old(db.W()), db.W(), key, runId, tool, kwargs, c, out)
      ensures !c.lookupRaises && c.death != Some(AfterReserve) && c.death != Some(AfterAdoption)
    {
      hide Receipt, Accepts, IsToolSideError, CallSpec, AskSpec, OnlyKey, KeyStateIn;
      ghost var w := db.W();
      c := Script(Receipt(kwargs, key), false, Clean, false, None);
      var called, fault, unmarked := MarkAndCall(key, runId, tool, kwargs);
      c := c.(fault := fault, death := if unmarked then Some(AfterInProgress) else None);
      ghost var v := db.W();
      match called {
        case Crashed =>
          return Crashed, c;
        case Ok(result) =>
          var settled := Settle(key, tool, LedgerState.Completed, Some(result));
          OnlyKeyTransitively(w, v, db.W(), EffectId(tool.provider, key));
          c := c.(death := if settled.Crashed? then Some(AfterSettling) else None);
          return if settled.Crashed? then Crashed else Ok(LedgerOutcome(result, false, false)), c;
        case Raised(e) =>
          var rescued, raised, died := Rescue(key, tool, e);
          OnlyKeyTransitively(w, v, db.W(), EffectId(tool.provider, key));
          c := c.(secondLookupRaises := raised, death := if died then Some(AfterSettling) else None);
          return rescued, c;
      }
    }

    /** The write-ahead commit and the call. */
    method MarkAndCall(key: Key, runId: string, tool: Tool, kwargs: Kwargs)
      returns (called: Outcome<Payload>, ghost fault: Fault, ghost unmarked: bool)
      requires key in db.sideEffects
      modifies db`sideEffects, db`providerEffects, db`calls, db`mishaps
      ensures KeepsLabel(old(db.sideEffects), db.sideEffects, key)
      ensures var open := Settled(StateFor(old(db.W()), tool, key), LedgerState.InProgress, None);
        var spec := CallSpec(tool.profile, Receipt(kwargs, key), open.applied, fault);
        && StateFor(db.W(), tool, key) == (if unmarked then open else open.(applied := spec.applied))
        && called == (if unmarked then Crashed else spec.outcome)
        && db.calls == (if unmarked then old(db.calls) else old(db.calls)[runId := CallsFor(old(db.calls), runId) + 1])
      ensures OnlyKey(old(db.sideEffects), old(db.providerEffects), db.sideEffects, db.providerEffects, EffectId(tool.provider, key))
      ensures key in db.sideEffects
      ensures old(db.mishaps) + (if called.Crashed? then 1 else 0) <= db.mishaps
      ensures db.mishaps == old(db.mishaps) && Accepts(tool.kind, kwargs) ==> fault.Clean?
      ensures called.Raised? ==> IsToolSideError(called.error)
      ensures unmarked ==> fault.Clean?
    {
      hide Receipt, Accepts, IsToolSideError, CallSpec;
      fault, unmarked := Clean, false;
      var marked := store.SetState(key, LedgerState.InProgress, None);
      if marked.Crashed? {
        unmarked := true;
        return Crashed, fault, unmarked;
      }
      called, fault := tool.Call(db, runId, kwargs, key);
    }

    method Settle(key: Key, tool: Tool, state: LedgerState, result: Option<Payload>) returns (out: Outcome<SideEffectRecord>)
      requires key in db.sideEffects
      modifies db`sideEffects, db`mishaps
      ensures KeepsLabel(old(db.sideEffects), db.sideEffects, key)
      ensures !out.Raised? && StateFor(db.W(), tool, key) == Settled(StateFor(old(db.W()), tool, key), state, result)
      ensures OnlyKey(old(db.sideEffects), db.providerEffects, db.sideEffects, db.providerEffects, EffectId(tool.provider, key))
      ensures db.mishaps == old(db.mishaps) + if out.Crashed? then 1 else 0
    {
      out := store.SetState(key, state, result);
    }

    /** The `except` branch: an effect that landed all the same is adopted; a permanent
        error closes the row, any other leaves it in flight. */
    method Rescue(key: Key, tool: Tool, e: Error) returns (out: Outcome<LedgerOutcome>, ghost raised: bool, ghost died: bool)
      requires key in db.sideEffects
      modifies db`sideEffects, db`mishaps
      ensures KeepsLabel(old(db.sideEffects), db.sideEffects, key)
      ensures var s := StateFor(old(db.W()), tool, key);
        var landed := AskSpec(tool.profile, s.applied, raised);
        && StateFor(db.W(), tool, key) ==
             (if landed.Some? then Settled(s, LedgerState.Completed, landed)
              else if IsPermanent(e) then Settled(s, LedgerState.Failed, None)
              else s)
        && out == (if died then Crashed else if landed.Some? then Ok(LedgerOutcome(landed.value, false, true)) else Raised(e))
        && (died ==> landed.Some? || IsPermanent(e))
      ensures OnlyKey(old(db.sideEffects), db.providerEffects, db.sideEffects, db.providerEffects, EffectId(tool.provider, key))
      ensures old(db.mishaps) + (if died then 1 else 0) <= db.mishaps
    {
      died := false;
      var landed;
      landed, raised := AskProvider(tool, key);
      if landed.None? && !IsPermanent(e) {
        return Raised(e), raised, died;
      }
      var settled := Settle(key, tool, if landed.Some? then LedgerState.Completed else LedgerState.Failed, landed);
      died := settled.Crashed?;
      out := if settled.Crashed? then Crashed else if landed.Some? then Ok(LedgerOutcome(landed.value, false, true)) else Raised(e);
    }

    /** What an existing row means: an outcome when the call must not be made, `Ok(None)`
        when it is safe to proceed to the tool. */
    method ResumeExisting(existing: SideEffectRecord, key: Key, tool: Tool)
      returns (out: Outcome<Option<LedgerOutcome>>, ghost raised: bool, ghost died: bool)
      requires key in db.sideEffects && db.sideEffects[key] == existing
      modifies db`sideEffects, db`mishaps
      ensures KeepsLabel(old(db.sideEffects), db.sideEffects, key)
      ensures var id := EffectId(tool.provider, key);
        var s := KeyStateIn(old(db.sideEffects), db.providerEffects, id);
        var landed := AskSpec(tool.profile, s.applied, raised);
        && out == (if existing.state.Completed? then
                     Ok(Some(LedgerOutcome(if existing.result.Some? then existing.result.value else NoResult, true, false)))
                   else if existing.state.InProgress? && landed.Some? then
                     if died then Crashed else Ok(Some(LedgerOutcome(landed.value, true, true)))
                   else if existing.state.InProgress? && !tool.profile.queryable then
                     Raised(SideEffectReconciliationRequired)
                   else
                     Ok(None))
        && KeyStateIn(db.sideEffects, db.providerEffects, id) ==
             (if existing.state.InProgress? && landed.Some? then Settled(s, LedgerState.Completed, landed) else s)
      ensures OnlyKey(old(db.sideEffects), old(db.providerEffects), db.sideEffects, db.providerEffects, EffectId(tool.provider, key)) && key in db.sideEffects
      ensures out == Ok(None) ==> db.sideEffects == old(db.sideEffects)
      ensures died ==> out.Crashed?
      ensures old(db.mishaps) + (if died then 1 else 0) <= db.mishaps
    {
      raised, died := false, false;
      match existing.state {
        case Completed =>
          return Ok(Some(LedgerOutcome(if existing.result.Some? then existing.result.value else NoResult, true, false))),
                 raised, died;
        case InProgress =>
          var landed;
          landed, raised := AskProvider(tool, key);
          if landed.Some? {
            var settled := store.SetState(key, LedgerState.Completed, landed);
            died := settled.Crashed?;
            return if settled.Crashed? then Crashed else Ok(Some(LedgerOutcome(landed.value, true, true))), raised, died;
          }
          if !tool.profile.queryable {
            return Raised(SideEffectReconciliationRequired), raised, died;
          }
          return Ok(None), raised, died;
        case Reserved => return Ok(None), raised, died;
        case Failed => return Ok(None), raised, died;
      }
    }

    /** None when the tool cannot be asked, and also when asking raised. */
    method AskProvider(tool: Tool, key: Key) returns (landed: Option<Payload>, ghost raised: bool)
      modifies db`mishaps
      ensures landed == AskSpec(tool.profile, Applied(db.providerEffects, EffectId(tool.provider, key)), raised)
      ensures old(db.mishaps) <= db.mishaps
    {
      if !tool.profile.queryable {
        return None, false;
      }
      var answer := tool.Lookup(db, key);
      if answer.Raised? {
        return None, true;
      }
      return answer.value, false;
    }
  }
}
