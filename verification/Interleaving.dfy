/** Any number of drivers inside `run_once` on one key at the same time, interleaved
    between any two commits, each free to die anywhere, against the package's own
    idempotent tools and with equal arguments. */
module Interleaving {
  import opened Domain
  import opened LedgerProtocol
  import opened Tools

  /** Where a driver stands: the next thing it does is what the phase is named after. */
  datatype Phase =
    | Reading
    | Reserving
    | AskingBefore
    | AdoptingBefore(landed: Payload)
    | Marking
    | Calling
    | Applying
    | Returning
    | Settling(result: Payload)
    | AskingAfter(error: Error)
    | AdoptingAfter(landed: Payload)
    | Failing(error: Error)
    | Done(outcome: Outcome<LedgerOutcome>)

  /** What the adversary decides at one step. */
  datatype Choice = GoOn | Raise(error: Error) | Die | DieAfter

  datatype Moved = Moved(state: KeyState, phase: Phase)

  /** One step: one read, one commit, or one outcome of the tool. `receipt` is what the
      provider records for the arguments every driver passes. */
  function Step(s: KeyState, p: Phase, receipt: Payload, c: Choice): Moved {
    match p
    case Reading =>
      Moved(s, match s.row
        case None => Reserving
        case Some(r) =>
          match r.state
          case Completed => Done(Ok(LedgerOutcome(if r.result.Some? then r.result.value else NoResult, true, false)))
          case InProgress => AskingBefore
          case Reserved | Failed => Marking)
    case Reserving =>
      if s.row.Some? then Moved(s, Reading)
      else Moved(s.(row := Some(LedgerRow(LedgerState.Reserved, None))), Marking)
    case AskingBefore => Moved(s, if s.applied != [] then AdoptingBefore(s.applied[0]) else Marking)
    case AdoptingBefore(landed) =>
      Moved(Settled(s, LedgerState.Completed, Some(landed)), Done(Ok(LedgerOutcome(landed, true, true))))
    case Marking => Moved(Settled(s, LedgerState.InProgress, None), Calling)
    case Calling =>
      Moved(s, if c.Raise? then AskingAfter(c.error) else if s.applied != [] then Settling(s.applied[0]) else Applying)
    case Applying =>
      if c.Raise? then Moved(s, AskingAfter(c.error))
      else Moved(s.(applied := if s.applied == [] then [receipt] else s.applied), Returning)
    case Returning => Moved(s, if c.Raise? then AskingAfter(c.error) else Settling(receipt))
    case Settling(result) =>
      Moved(Settled(s, LedgerState.Completed, Some(result)), Done(Ok(LedgerOutcome(result, false, false))))
    case AskingAfter(e) =>
      Moved(s, if s.applied != [] then AdoptingAfter(s.applied[0]) else if IsPermanent(e) then Failing(e) else Done(Raised(e)))
    case AdoptingAfter(landed) =>
      Moved(Settled(s, LedgerState.Completed, Some(landed)), Done(Ok(LedgerOutcome(landed, false, true))))
    case Failing(e) => Moved(Settled(s, LedgerState.Failed, None), Done(Raised(e)))
    case Done(_) => Moved(s, p)
  }

  /** A step, or the death of the driver just before it or just after its commit. */
  function Move(s: KeyState, p: Phase, receipt: Payload, c: Choice): Moved {
    if p.Done? then Moved(s, p)
    else if c.Die? then Moved(s, Done(Crashed))
    else if c.DieAfter? then Moved(Step(s, p, receipt, c).state, Done(Crashed))
    else Step(s, p, receipt, c)
  }

  datatype System = System(key: KeyState, drivers: seq<Phase>)

  datatype Event = Joins | Acts(driver: nat, choice: Choice)

  /** A new driver enters `run_once`, or one of those inside takes a step. */
  function React(m: System, receipt: Payload, e: Event): System {
    match e
    case Joins => m.(drivers := m.drivers + [Reading])
    case Acts(d, c) =>
      if d >= |m.drivers| then m
      else
        var moved := Move(m.key, m.drivers[d], receipt, c);
        System(moved.state, m.drivers[d := moved.phase])
  }

  function RunAll(m: System, receipt: Payload, es: seq<Event>): System
    decreases |es|
  {
    if es == [] then m else React(RunAll(m, receipt, es[..|es| - 1]), receipt, es[|es| - 1])
  }

  const NOBODY := System(FRESH, [])

  // ------------------------------------------------------------------- the invariant

  predicate Landed(s: KeyState, receipt: Payload) {
    s.applied == [receipt]
  }

  /** Whatever the row's state says, a stored result is the provider's, and a completed
      row has one. */
  predicate KeyFits(s: KeyState, receipt: Payload) {
    && (s.applied == [] || Landed(s, receipt))
    && (s.row.Some? && s.row.value.result.Some? ==> s.row.value.result == Some(receipt) && Landed(s, receipt))
    && (s.row.Some? && s.row.value.state.Completed? ==> s.row.value.result.Some?)
    && (s.applied != [] ==> s.row.Some?)
  }

  predicate PhaseFits(s: KeyState, receipt: Payload, p: Phase) {
    match p
    case Reading => true
    case Reserving => true
    case AdoptingBefore(landed) => s.row.Some? && landed == receipt && Landed(s, receipt)
    case AdoptingAfter(landed) => s.row.Some? && landed == receipt && Landed(s, receipt)
    case Settling(result) => s.row.Some? && result == receipt && Landed(s, receipt)
    case Returning => s.row.Some? && Landed(s, receipt)
    case Done(Ok(o)) => s.row.Some? && o.result == receipt && Landed(s, receipt)
    case Done(_) => true
    case _ => s.row.Some?
  }

  predicate Fits(m: System, receipt: Payload) {
    && KeyFits(m.key, receipt)
    && forall d :: 0 <= d < |m.drivers| ==> PhaseFits(m.key, receipt, m.drivers[d])
  }

  /** What a step of one driver never takes from the others. */
  predicate KeyGrows(s: KeyState, s': KeyState) {
    && (s.row.Some? ==> s'.row.Some?)
    && (s.applied != [] ==> s'.applied == s.applied)
    && (s.row.Some? && s.row.value.result.Some? ==> s'.row.Some? && s'.row.value.result == s.row.value.result)
  }

  lemma OneMove(s: KeyState, p: Phase, receipt: Payload, c: Choice)
    requires KeyFits(s, receipt) && PhaseFits(s, receipt, p)
    ensures var moved := Move(s, p, receipt, c);
      KeyFits(moved.state, receipt) && PhaseFits(moved.state, receipt, moved.phase) && KeyGrows(s, moved.state)
  {
  }

  lemma OthersStillFit(s: KeyState, s': KeyState, receipt: Payload, p: Phase)
    requires KeyGrows(s, s') && PhaseFits(s, receipt, p)
    ensures PhaseFits(s', receipt, p)
  {
  }

  lemma OneEvent(m: System, receipt: Payload, e: Event)
    requires Fits(m, receipt)
    ensures Fits(React(m, receipt, e), receipt) && KeyGrows(m.key, React(m, receipt, e).key)
  {
    hide Move, PhaseFits, KeyFits, KeyGrows;
    var m' := React(m, receipt, e);
    if e.Acts? && e.driver < |m.drivers| {
      OneMove(m.key, m.drivers[e.driver], receipt, e.choice);
      forall d | 0 <= d < |m'.drivers| && d != e.driver
        ensures PhaseFits(m'.key, receipt, m'.drivers[d])
      {
        OthersStillFit(m.key, m'.key, receipt, m.drivers[d]);
      }
    } else {
      NothingLost(m.key);
      assert PhaseFits(m'.key, receipt, Reading) by {
        ReadingFits(m'.key, receipt);
      }
    }
  }

  lemma NothingLost(s: KeyState)
    ensures KeyGrows(s, s)
  {
  }

  lemma ReadingFits(s: KeyState, receipt: Payload)
    ensures PhaseFits(s, receipt, Reading)
  {
  }

  /** However many drivers there are and however they are interleaved and die: the
      provider holds at most one effect, every outcome handed out carries it, and so does
      the ledger row as soon as it carries anything. */
  lemma {:induction false} ManyDriversOneEffect(receipt: Payload, es: seq<Event>)
    ensures Fits(RunAll(NOBODY, receipt, es), receipt)
    ensures var m := RunAll(NOBODY, receipt, es);
      && |m.key.applied| <= 1
      && (forall d :: 0 <= d < |m.drivers| && m.drivers[d].Done? && m.drivers[d].outcome.Ok? ==>
            m.key.applied == [m.drivers[d].outcome.value.result])
      && (m.key.row.Some? && m.key.row.value.result.Some? ==> m.key.applied == [m.key.row.value.result.value])
    decreases |es|
  {
    hide Move;
    if es != [] {
      ManyDriversOneEffect(receipt, es[..|es| - 1]);
      OneEvent(RunAll(NOBODY, receipt, es[..|es| - 1]), receipt, es[|es| - 1]);
    }
  }

  /** A stored result, once there, is there for good, and so is the provider's effect. */
  lemma {:induction false} ResultsNeverChange(m: System, receipt: Payload, es: seq<Event>)
    requires Fits(m, receipt)
    ensures Fits(RunAll(m, receipt, es), receipt) && KeyGrows(m.key, RunAll(m, receipt, es).key)
    decreases |es|
  {
    hide Move, PhaseFits, KeyFits;
    if es != [] {
      ResultsNeverChange(m, receipt, es[..|es| - 1]);
      OneEvent(RunAll(m, receipt, es[..|es| - 1]), receipt, es[|es| - 1]);
    }
  }

  // --------------------------------------------------------------- losing the race

  /** Nobody dies and no tool raises. */
  predicate IsCalm(es: seq<Event>) {
    forall i :: 0 <= i < |es| && es[i].Acts? ==> es[i].choice.GoOn?
  }

  function ActsOf(es: seq<Event>, d: nat): nat {
    if es == [] then 0
    else ActsOf(es[..|es| - 1], d) + if es[|es| - 1].Acts? && es[|es| - 1].driver == d then 1 else 0
  }

  /** On its way to a result, without an exception behind it. */
  predicate IsOnItsWay(p: Phase) {
    !p.AskingAfter? && !p.AdoptingAfter? && !p.Failing? && (p.Done? ==> p.outcome.Ok?)
  }

  /** The steps a driver is away from its result, at most, once the key has a row. */
  function StepsAway(p: Phase): nat {
    match p
    case Reserving => 8 case Reading => 7 case AskingBefore => 6 case Marking => 5 case Calling => 4 case Applying => 3
    case Returning => 2 case Settling(_) => 1 case AdoptingBefore(_) => 1 case _ => 0
  }

  lemma OneCalmMove(s: KeyState, p: Phase, receipt: Payload)
    requires KeyFits(s, receipt) && PhaseFits(s, receipt, p) && s.row.Some? && IsOnItsWay(p)
    ensures var moved := Move(s, p, receipt, GoOn);
      IsOnItsWay(moved.phase) && (p.Done? || StepsAway(moved.phase) < StepsAway(p))
  {
  }

  lemma {:induction false} LosersAreOnTheirWay(m: System, receipt: Payload, es: seq<Event>, d: nat)
    requires Fits(m, receipt) && d < |m.drivers| && m.drivers[d].Reserving? && m.key.row.Some? && IsCalm(es)
    ensures var u := RunAll(m, receipt, es);
      && Fits(u, receipt) && d < |u.drivers| && u.key.row.Some? && IsOnItsWay(u.drivers[d])
      && (u.drivers[d].Done? || StepsAway(u.drivers[d]) + ActsOf(es, d) <= 8)
    decreases |es|
  {
    hide Move, PhaseFits, KeyFits, IsOnItsWay, StepsAway;
    if es == [] {
      assert IsOnItsWay(Reserving) && StepsAway(Reserving) == 8 by {
        ReservingIsEightStepsAway();
      }
    } else {
      var v, e := RunAll(m, receipt, es[..|es| - 1]), es[|es| - 1];
      LosersAreOnTheirWay(m, receipt, es[..|es| - 1], d);
      OneEvent(v, receipt, e);
      if e.Acts? && e.driver == d {
        OneCalmMove(v.key, v.drivers[d], receipt);
        DoneStaysDone(v.key, v.drivers[d], receipt);
      }
    }
  }

  lemma ReservingIsEightStepsAway()
    ensures IsOnItsWay(Reserving) && StepsAway(Reserving) == 8
  {
  }

  lemma DoneStaysDone(s: KeyState, p: Phase, receipt: Payload)
    ensures p.Done? ==> Move(s, p, receipt, GoOn) == Moved(s, p)
  {
  }

  /** A driver that reads no row, and finds the key taken when it tries to reserve it, loses
      nothing: whoever else is at work, as long as nobody dies and no tool raises, eight steps
      of its own bring it the stored receipt, and it never ends otherwise. */
  lemma LosersOfTheRaceGetTheReceipt(m: System, receipt: Payload, es: seq<Event>, d: nat)
    requires Fits(m, receipt) && d < |m.drivers| && m.drivers[d].Reserving? && m.key.row.Some? && IsCalm(es)
    ensures var u := RunAll(m, receipt, es);
      && d < |u.drivers|
      && (ActsOf(es, d) >= 8 ==> u.drivers[d].Done?)
      && (u.drivers[d].Done? ==>
            u.drivers[d].outcome.Ok? && u.drivers[d].outcome.value.result == receipt && u.key.applied == [receipt])
  {
    LosersAreOnTheirWay(m, receipt, es, d);
    var u := RunAll(m, receipt, es);
    assert PhaseFits(u.key, receipt, u.drivers[d]);
  }

  // --------------------------------------------------- what does not survive company

  predicate IsCompleted(s: KeyState) {
    s.row.Some? && s.row.value.state.Completed?
  }

  /** Some driver is past its reading of the row and about to write a state over it. */
  predicate HasDecided(p: Phase) {
    p.Marking? || p.Failing?
  }

  predicate NobodyHasDecided(m: System) {
    forall d :: 0 <= d < |m.drivers| ==> !HasDecided(m.drivers[d])
  }

  /** Over a completed row nobody comes to such a decision any more. */
  lemma CompletedRowsConvince(s: KeyState, p: Phase, receipt: Payload, c: Choice)
    requires KeyFits(s, receipt) && PhaseFits(s, receipt, p) && IsCompleted(s) && !HasDecided(p)
    ensures var moved := Move(s, p, receipt, c); IsCompleted(moved.state) && !HasDecided(moved.phase)
  {
  }

  lemma {:induction false} CompletedStays(m: System, receipt: Payload, es: seq<Event>)
    requires Fits(m, receipt) && IsCompleted(m.key) && NobodyHasDecided(m)
    ensures Fits(RunAll(m, receipt, es), receipt)
    ensures IsCompleted(RunAll(m, receipt, es).key) && NobodyHasDecided(RunAll(m, receipt, es))
    decreases |es|
  {
    hide Move, PhaseFits, KeyFits, IsCompleted;
    if es != [] {
      var v, e := RunAll(m, receipt, es[..|es| - 1]), es[|es| - 1];
      CompletedStays(m, receipt, es[..|es| - 1]);
      OneEvent(v, receipt, e);
      if e.Acts? && e.driver < |v.drivers| {
        CompletedRowsConvince(v.key, v.drivers[e.driver], receipt, e.choice);
      }
    }
  }

  lemma DecisionsReopen(m: System, receipt: Payload, d: nat)
    requires Fits(m, receipt) && d < |m.drivers| && HasDecided(m.drivers[d])
    ensures !IsCompleted(RunAll(m, receipt, [Acts(d, GoOn)]).key)
  {
    NoEvents(m, receipt);
    OneMore(m, receipt, [], Acts(d, GoOn));
    assert [] + [Acts(d, GoOn)] == [Acts(d, GoOn)];
    assert PhaseFits(m.key, receipt, m.drivers[d]);
  }

  /** When `completed` is final in company: a completed row stays completed over every
      continuation, with however many new drivers, if and only if no driver has already
      decided to mark it in progress or failed. */
  lemma CompletedIsFinalIff(m: System, receipt: Payload)
    requires Fits(m, receipt) && IsCompleted(m.key)
    ensures (forall es: seq<Event> :: IsCompleted(RunAll(m, receipt, es).key)) <==> NobodyHasDecided(m)
  {
    if NobodyHasDecided(m) {
      forall es: seq<Event>
        ensures IsCompleted(RunAll(m, receipt, es).key)
      {
        CompletedStays(m, receipt, es);
      }
    } else {
      var d: nat :| d < |m.drivers| && HasDecided(m.drivers[d]);
      DecisionsReopen(m, receipt, d);
    }
  }

  lemma OneMore(m: System, receipt: Payload, es: seq<Event>, e: Event)
    ensures RunAll(m, receipt, es + [e]) == React(RunAll(m, receipt, es), receipt, e)
  {
    assert (es + [e])[..|es|] == es;
  }

  /** With company, `completed` is not final: a driver that read the row before another
      one completed it marks it in progress again. */
  lemma CompletedIsNotFinal(receipt: Payload) returns (es: seq<Event>, e: Event)
    ensures IsCompleted(RunAll(NOBODY, receipt, es).key)
    ensures !IsCompleted(React(RunAll(NOBODY, receipt, es), receipt, e).key)
  {
    hide RunAll;
    var first: seq<Event> := [];
    NoEvents(NOBODY, receipt);
    OneMore(NOBODY, receipt, first, Joins);
    var s1 := first + [Joins];
    OneMore(NOBODY, receipt, s1, Acts(0, GoOn));
    var s2 := s1 + [Acts(0, GoOn)];
    OneMore(NOBODY, receipt, s2, Acts(0, GoOn));
    var s3 := s2 + [Acts(0, GoOn)];
    assert RunAll(NOBODY, receipt, s3) == System(KeyState(Some(LedgerRow(LedgerState.Reserved, None)), []), [Marking]);
    OneMore(NOBODY, receipt, s3, Joins);
    var s4 := s3 + [Joins];
    OneMore(NOBODY, receipt, s4, Acts(1, GoOn));
    var s5 := s4 + [Acts(1, GoOn)];
    OneMore(NOBODY, receipt, s5, Acts(1, GoOn));
    var s6 := s5 + [Acts(1, GoOn)];
    assert RunAll(NOBODY, receipt, s6) == System(KeyState(Some(LedgerRow(LedgerState.InProgress, None)), []), [Marking, Calling]);
    OneMore(NOBODY, receipt, s6, Acts(1, GoOn));
    var s7 := s6 + [Acts(1, GoOn)];
    OneMore(NOBODY, receipt, s7, Acts(1, GoOn));
    var s8 := s7 + [Acts(1, GoOn)];
    OneMore(NOBODY, receipt, s8, Acts(1, GoOn));
    var s9 := s8 + [Acts(1, GoOn)];
    assert RunAll(NOBODY, receipt, s9).drivers == [Marking, Settling(receipt)];
    OneMore(NOBODY, receipt, s9, Acts(1, GoOn));
    es, e := s9 + [Acts(1, GoOn)], Acts(0, GoOn);
  }

  // ------------------------------------------- the steps are the steps of `run_once`

  function Solo(s: KeyState): System {
    System(s, [Reading])
  }

  /** One more step of a driver that is alone. */
  lemma Then(start: KeyState, receipt: Payload, es: seq<Event>, s: KeyState, p: Phase, c: Choice) returns (more: seq<Event>)
    requires RunAll(Solo(start), receipt, es) == System(s, [p])
    ensures var moved := Move(s, p, receipt, c);
      RunAll(Solo(start), receipt, more) == System(moved.state, [moved.phase])
  {
    hide Move;
    more := es + [Acts(0, c)];
    OneMore(Solo(start), receipt, es, Acts(0, c));
  }

  function AtTheEnd(c: Script): Choice {
    if c.death == Some(AfterSettling) then DieAfter else GoOn
  }

  lemma SoloAttempt(start: KeyState, es: seq<Event>, s: KeyState, c: Script) returns (all: seq<Event>)
    requires RunAll(Solo(start), c.receipt, es) == System(s, [Marking])
    ensures var once := AttemptSpec(SHIPPED, s, c);
      RunAll(Solo(start), c.receipt, all) == System(once.state, [Done(once.outcome)])
  {
    hide RunAll;
    var open := Settled(s, LedgerState.InProgress, None);
    all := Then(start, c.receipt, es, s, Marking, GoOn);
    if c.death == Some(AfterInProgress) {
      all := Then(start, c.receipt, all, open, Calling, Die);
      return;
    }
    match c.fault {
      case Clean =>
        all := Then(start, c.receipt, all, open, Calling, GoOn);
        if open.applied == [] {
          all := Then(start, c.receipt, all, open, Applying, GoOn);
          open := open.(applied := [c.receipt]);
          all := Then(start, c.receipt, all, open, Returning, GoOn);
        }
        all := Then(start, c.receipt, all, open, Settling(open.applied[0]), AtTheEnd(c));
      case Dies(lands) =>
        if lands && open.applied == [] {
          all := Then(start, c.receipt, all, open, Calling, GoOn);
          all := Then(start, c.receipt, all, open, Applying, GoOn);
          open := open.(applied := [c.receipt]);
          all := Then(start, c.receipt, all, open, Returning, Die);
        } else {
          all := Then(start, c.receipt, all, open, Calling, Die);
        }
      case Raises(lands, e) =>
        if lands && open.applied == [] && !IsPermanent(e) {
          all := Then(start, c.receipt, all, open, Calling, GoOn);
          all := Then(start, c.receipt, all, open, Applying, GoOn);
          open := open.(applied := [c.receipt]);
          all := Then(start, c.receipt, all, open, Returning, Raise(e));
        } else {
          all := Then(start, c.receipt, all, open, Calling, Raise(e));
        }
        all := Then(start, c.receipt, all, open, AskingAfter(e), GoOn);
        if open.applied != [] {
          all := Then(start, c.receipt, all, open, AdoptingAfter(open.applied[0]), AtTheEnd(c));
        } else if IsPermanent(e) {
          all := Then(start, c.receipt, all, open, Failing(e), AtTheEnd(c));
        }
    }
  }

  /** Every call of `run_once` is a run of these steps: whatever the adversary does to a
      call that is alone on its key, the steps can do, ending in the same store with the
      same outcome. So what holds of all interleavings of steps holds of the calls. */
  lemma CallsAreRunsOfSteps(s: KeyState, c: Script) returns (es: seq<Event>)
    ensures var once := RunOnceSpec(SHIPPED, s, c);
      RunAll(Solo(s), c.receipt, es) == System(once.state, [Done(once.outcome)])
  {
    hide RunAll, AttemptSpec;
    es := [];
    assert RunAll(Solo(s), c.receipt, es) == System(s, [Reading]) by {
      NoEvents(Solo(s), c.receipt);
    }
    es := Then(s, c.receipt, es, s, Reading, GoOn);
    if s.row.None? {
      var reserved := s.(row := Some(LedgerRow(LedgerState.Reserved, None)));
      es := Then(s, c.receipt, es, s, Reserving, if c.death == Some(AfterReserve) then DieAfter else GoOn);
      if c.death != Some(AfterReserve) {
        es := SoloAttempt(s, es, reserved, c);
      }
    } else if s.row.value.state.InProgress? {
      es := Then(s, c.receipt, es, s, AskingBefore, GoOn);
      if s.applied != [] {
        es := Then(s, c.receipt, es, s, AdoptingBefore(s.applied[0]), if c.death == Some(AfterAdoption) then DieAfter else GoOn);
      } else {
        es := SoloAttempt(s, es, s, c);
      }
    } else if !s.row.value.state.Completed? {
      es := SoloAttempt(s, es, s, c);
    }
  }

  lemma NoEvents(m: System, receipt: Payload)
    ensures RunAll(m, receipt, []) == m
  {
  }
}
