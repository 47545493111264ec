/** The LLM boundary: the model proposes, the schema and the HR record dispose. */
module Plan {
  import opened Domain
  import opened Durable

  function SystemSet(systems: seq<string>): set<string> {
    set s | s in systems
  }

  function ProposedSystems(items: seq<ChecklistItem>): set<string> {
    set item | item in items :: item.system
  }

  function ValidatePlan(plan: DeprovisioningPlan, employee: Employee): Outcome<DeprovisioningPlan> {
    var known := SystemSet(employee.systems);
    var proposed := ProposedSystems(plan.items);
    if plan.items == [] then Raised(InvalidPlan)
    else if proposed - known != {} then Raised(InvalidPlan)
    else if known - proposed != {} then Raised(InvalidPlan)
    else Ok(plan)
  }

  function ParsePlan(raw: RawPlan, employee: Employee): Outcome<DeprovisioningPlan> {
    match raw
    case Malformed => Raised(InvalidPlan)
    case Shaped(plan) => ValidatePlan(plan, employee)
  }

  /** The plan covers the employee's access exactly, and covers something. */
  predicate Matches(items: seq<ChecklistItem>, employee: Employee) {
    items != [] && SystemSet(Systems(items)) == SystemSet(employee.systems)
  }

  lemma ProposedAreTheListedSystems(items: seq<ChecklistItem>)
    ensures ProposedSystems(items) == SystemSet(Systems(items))
  {
    forall s | s in ProposedSystems(items)
      ensures s in SystemSet(Systems(items))
    {
      var i :| 0 <= i < |items| && items[i].system == s;
      assert Systems(items)[i] == s;
    }
    forall s | s in SystemSet(Systems(items))
      ensures s in ProposedSystems(items)
    {
      var i :| 0 <= i < |items| && Systems(items)[i] == s;
      assert items[i] in items;
    }
  }

  /** An answer worth taking. */
  predicate IsAcceptable(raw: RawPlan, employee: Employee) {
    raw.Shaped? && Matches(raw.plan.items, employee)
  }

  /** Model output becomes a plan if and only if it fits the schema, is not empty, and
      names every system of the HR record and no other; anything else is `InvalidPlan`. */
  lemma PlanAcceptedIffItMatches(raw: RawPlan, employee: Employee)
    ensures ParsePlan(raw, employee).Ok? <==> raw.Shaped? && Matches(raw.plan.items, employee)
    ensures ParsePlan(raw, employee).Ok? ==> ParsePlan(raw, employee).value == raw.plan
    ensures !ParsePlan(raw, employee).Ok? ==> ParsePlan(raw, employee) == Raised(InvalidPlan)
  {
    if raw.Shaped? {
      ProposedAreTheListedSystems(raw.plan.items);
    }
  }

  /** An employee without systems can never be offboarded: no plan is acceptable. */
  lemma NoPlanFitsAnEmployeeWithoutSystems(raw: RawPlan, employee: Employee)
    requires employee.systems == []
    ensures ParsePlan(raw, employee) == Raised(InvalidPlan)
  {
    if raw.Shaped? && raw.plan.items != [] {
      assert raw.plan.items[0].system in ProposedSystems(raw.plan.items);
    }
  }

  /** Any model behind either provider: it may fail, die, or answer anything. */
  class LlmProvider {
    const name: string

    constructor (name: string)
      ensures this.name == name
    {
      this.name := name;
    }

    /** The ghost result is the model's answer, if it gave one; `runId` is for the record of
        answers only. */
    method GeneratePlan(db: Store, runId: string, employee: Employee)
      returns (out: Outcome<DeprovisioningPlan>, ghost answer: Option<RawPlan>)
      modifies db`answers, db`mishaps
      ensures db.answers == if answer.Some? then WithAnswer(old(db.answers), runId, answer.value) else old(db.answers)
      ensures answer.Some? ==>
        out == if IsAcceptable(answer.value, employee) then Ok(answer.value.plan) else Raised(InvalidPlan)
      ensures answer.None? ==> out.Crashed? || out in {Raised(TransientToolError), Raised(ForeignError)}
      ensures old(db.mishaps) <= db.mishaps
      ensures out.Ok? <==> db.mishaps == old(db.mishaps)
    {
      answer := None;
      var raw: RawPlan := *;
      var answered: bool := *;
      if !answered {
        db.mishaps := db.mishaps + 1;
        var died: bool := *;
        var transient: bool := *;
        return if died then Crashed else if transient then Raised(TransientToolError) else Raised(ForeignError), answer;
      }
      answer := Some(raw);
      db.answers := WithAnswer(db.answers, runId, raw);
      PlanAcceptedIffItMatches(raw, employee);
      out := ParsePlan(raw, employee);
      if !out.Ok? {
        db.mishaps := db.mishaps + 1;
      }
    }
  }
}
