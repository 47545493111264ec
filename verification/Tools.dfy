/** Tools and their providers: the four shipped tools, the contract they meet, the
    adversarial tool that stands for any tool meeting it, and the registry. */
module Tools {
  import opened Domain
  import opened Durable
  import opened Keys
  import opened LedgerProtocol

  datatype ToolKind = HrDirectory | Iam | SendPaperwork | ArchiveRecord

  datatype ToolSpec = ToolSpec(name: string, sideEffecting: bool, requiresApproval: bool)

  const HR_DIRECTORY := "hr_directory.get_employee"
  const IAM_REVOKE := "iam.revoke_access"
  const SEND_PAPERWORK := "documents.send_exit_paperwork"
  const ARCHIVE_RECORD := "documents.archive_record"

  function SpecOf(kind: ToolKind): ToolSpec {
    match kind
    case HrDirectory => ToolSpec(HR_DIRECTORY, false, false)
    case Iam => ToolSpec(IAM_REVOKE, true, true)
    case SendPaperwork => ToolSpec(SEND_PAPERWORK, true, false)
    case ArchiveRecord => ToolSpec(ARCHIVE_RECORD, true, false)
  }

  function ProviderOf(kind: ToolKind): Provider {
    match kind
    case HrDirectory => NoProvider
    case Iam => IamProvider
    case SendPaperwork => DocumentsProvider
    case ArchiveRecord => ArchiveProvider
  }

  datatype Kwargs =
    | EmployeeArgs(employeeId: string)
    | RevokeArgs(employeeId: string, systems: seq<string>)
    | SendArgs(employeeId: string, email: string, checklist: seq<ChecklistItem>)
    | ArchiveArgs(employeeId: string, summary: Summary)

  /** The call would raise a TypeError on any other arguments. */
  predicate Accepts(kind: ToolKind, kwargs: Kwargs) {
    match kind
    case HrDirectory => kwargs.EmployeeArgs?
    case Iam => kwargs.RevokeArgs?
    case SendPaperwork => kwargs.SendArgs?
    case ArchiveRecord => kwargs.ArchiveArgs?
  }

  /** What the provider records for these arguments under this key. */
  function Receipt(kwargs: Kwargs, key: Key): Payload {
    match kwargs
    case EmployeeArgs(_) => NoResult
    case RevokeArgs(e, systems) => Revocation(e, systems, "rev_" + LastTwelve(Render(key)))
    case SendArgs(e, email, checklist) => Paperwork("doc_" + LastTwelve(Render(key)), e, email, |checklist|)
    case ArchiveArgs(e, summary) => Archive("arc_" + LastTwelve(Render(key)), e, summary)
  }

  /** What the shipped tools are like: idempotent, queryable, honest. */
  const SHIPPED := ToolProfile(true, true, true, true)

  // ------------------------------------------------------------- the providers

  /** The table after the provider's list for `id` became `payloads`. */
  function WithApplied(effects: map<EffectId, seq<Payload>>, id: EffectId, payloads: seq<Payload>): (r: map<EffectId, seq<Payload>>)
    ensures Applied(r, id) == payloads
    ensures forall other :: other != id ==> Applied(r, other) == Applied(effects, other)
  {
    if payloads == Applied(effects, id) then effects else effects[id := payloads]
  }

  class ProviderStore {
    const db: Store
    const provider: Provider

    constructor (db: Store, provider: Provider)
      ensures this.db == db && this.provider == provider
    {
      this.db, this.provider := db, provider;
    }

    /** INSERT OR IGNORE: a second record under one key changes nothing. */
    method Record(key: Key, payload: Payload)
      modifies db`providerEffects
      ensures var before := Applied(old(db.providerEffects), EffectId(provider, key));
        db.providerEffects == WithApplied(old(db.providerEffects), EffectId(provider, key),
                                          if before == [] then [payload] else before)
    {
      if Applied(db.providerEffects, EffectId(provider, key)) == [] {
        db.providerEffects := db.providerEffects[EffectId(provider, key) := [payload]];
      }
    }

    method Lookup(key: Key) returns (found: Option<Payload>)
      ensures found == AskSpec(SHIPPED, Applied(db.providerEffects, EffectId(provider, key)), false)
    {
      var rows := Applied(db.providerEffects, EffectId(provider, key));
      found := if rows == [] then None else Some(rows[0]);
    }
  }

  // --------------------------------------------------------- the shipped tools

  class IamTool {
    const store: ProviderStore
    const failPermanently: bool
    const crashAfterApply: bool
    var remainingFailures: nat

    constructor (db: Store, failTimes: nat, failPermanently: bool, crashAfterApply: bool)
      ensures fresh(store) && store.db == db && store.provider == IamProvider
      ensures this.failPermanently == failPermanently && this.crashAfterApply == crashAfterApply
      ensures remainingFailures == failTimes
    {
      store := new ProviderStore(db, IamProvider);
      this.failPermanently, this.crashAfterApply, remainingFailures := failPermanently, crashAfterApply, failTimes;
    }

    /** Meets the contract of a deduplicating, honest tool, and says which failure
        it injects: it fails only when nothing was applied, and then applies nothing;
        it dies only after applying. */
    method Call(employeeId: string, systems: seq<string>, key: Key) returns (out: Outcome<Payload>, ghost fault: Fault)
      modifies this, store.db`providerEffects
      ensures var id := EffectId(store.provider, key);
        var spec := CallSpec(SHIPPED, Receipt(RevokeArgs(employeeId, systems), key), Applied(old(store.db.providerEffects), id), fault);
        store.db.providerEffects == WithApplied(old(store.db.providerEffects), id, spec.applied) && out == spec.outcome
      ensures var landed := Applied(old(store.db.providerEffects), EffectId(store.provider, key)) != [];
        fault == if landed then Clean
                 else if failPermanently then Raises(false, PermanentToolError)
                 else if old(remainingFailures) > 0 then Raises(false, TransientToolError)
                 else if crashAfterApply then Dies(true)
                 else Clean
      ensures remainingFailures == old(remainingFailures) - if fault == Raises(false, TransientToolError) then 1 else 0
    {
      fault := Clean;
      var existing := store.Lookup(key);
      if existing.Some? {
        return Ok(existing.value), fault;
      }
      if failPermanently {
        fault := Raises(false, PermanentToolError);
        return Raised(PermanentToolError), fault;
      }
      if remainingFailures > 0 {
        remainingFailures := remainingFailures - 1;
        fault := Raises(false, TransientToolError);
        return Raised(TransientToolError), fault;
      }
      var receipt := Revocation(employeeId, systems, "rev_" + LastTwelve(Render(key)));
      store.Record(key, receipt);
      assert [] + [receipt] == [receipt];
      if crashAfterApply {
        fault := Dies(true);
        return Crashed, fault;
      }
      return Ok(receipt), fault;
    }
  }

  class SendExitPaperworkTool {
    const store: ProviderStore
    var remainingFailures: nat

    constructor (db: Store, failTimes: nat)
      ensures fresh(store) && store.db == db && store.provider == DocumentsProvider && remainingFailures == failTimes
    {
      store := new ProviderStore(db, DocumentsProvider);
      remainingFailures := failTimes;
    }

    method Call(employeeId: string, email: string, checklist: seq<ChecklistItem>, key: Key)
      returns (out: Outcome<Payload>, ghost fault: Fault)
      modifies this, store.db`providerEffects
      ensures var id := EffectId(store.provider, key);
        var spec := CallSpec(SHIPPED, Receipt(SendArgs(employeeId, email, checklist), key), Applied(old(store.db.providerEffects), id), fault);
        store.db.providerEffects == WithApplied(old(store.db.providerEffects), id, spec.applied) && out == spec.outcome
      ensures fault.Clean? <==>
        old(remainingFailures) == 0 || Applied(old(store.db.providerEffects), EffectId(store.provider, key)) != []
      ensures !fault.Clean? ==> fault == Raises(false, TransientToolError) && remainingFailures == old(remainingFailures) - 1
    {
      fault := Clean;
      var existing := store.Lookup(key);
      if existing.Some? {
        return Ok(existing.value), fault;
      }
      if remainingFailures > 0 {
        remainingFailures := remainingFailures - 1;
        fault := Raises(false, TransientToolError);
        return Raised(TransientToolError), fault;
      }
      var receipt := Paperwork("doc_" + LastTwelve(Render(key)), employeeId, email, |checklist|);
      store.Record(key, receipt);
      assert [] + [receipt] == [receipt];
      return Ok(receipt), fault;
    }
  }

  class ArchiveRecordTool {
    const store: ProviderStore

    constructor (db: Store)
      ensures fresh(store) && store.db == db && store.provider == ArchiveProvider
    {
      store := new ProviderStore(db, ArchiveProvider);
    }

    method Call(employeeId: string, summary: Summary, key: Key) returns (out: Outcome<Payload>)
      modifies store.db`providerEffects
      ensures var id := EffectId(store.provider, key);
        var spec := CallSpec(SHIPPED, Receipt(ArchiveArgs(employeeId, summary), key), Applied(old(store.db.providerEffects), id), Clean);
        store.db.providerEffects == WithApplied(old(store.db.providerEffects), id, spec.applied) && out == spec.outcome
    {
      var existing := store.Lookup(key);
      if existing.Some? {
        return Ok(existing.value);
      }
      var receipt := Archive("arc_" + LastTwelve(Render(key)), employeeId, summary);
      store.Record(key, receipt);
      assert [] + [receipt] == [receipt];
      return Ok(receipt);
    }
  }

  // --------------------------------------------------------- the adversarial tool

  /** The errors a tool raises: the package's two, or anything else Python has. */
  predicate IsToolSideError(e: Error) {
    e.TransientToolError? || e.PermanentToolError? || e.ForeignError?
  }

  /** Any tool of a kind that meets `CallSpec` for its profile: which fault hits a call,
      and whether a `lookup` raises, is up to the adversary. */
  class Tool {
    const kind: ToolKind
    const profile: ToolProfile
    const directory: map<string, Employee>
    const spec: ToolSpec := SpecOf(kind)
    const provider: Provider := ProviderOf(kind)

    constructor (kind: ToolKind, profile: ToolProfile, directory: map<string, Employee>)
      ensures this.kind == kind && this.profile == profile && this.directory == directory
    {
      this.kind, this.profile, this.directory := kind, profile, directory;
    }

    method Call(db: Store, runId: string, kwargs: Kwargs, key: Key) returns (out: Outcome<Payload>, ghost fault: Fault)
      modifies db`providerEffects, db`calls, db`mishaps
      ensures var id := EffectId(provider, key);
        var spec := CallSpec(profile, Receipt(kwargs, key), Applied(old(db.providerEffects), id), fault);
        db.providerEffects == WithApplied(old(db.providerEffects), id, spec.applied) && out == spec.outcome
      ensures db.calls == old(db.calls)[runId := CallsFor(old(db.calls), runId) + 1]
      ensures old(db.mishaps) <= db.mishaps
      ensures db.mishaps == old(db.mishaps) && Accepts(kind, kwargs) ==> fault.Clean?
      ensures out.Raised? ==> IsToolSideError(out.error)
      ensures out.Crashed? ==> old(db.mishaps) < db.mishaps
    {
      db.calls := db.calls[runId := CallsFor(db.calls, runId) + 1];
      var f: Fault := *;
      if !Accepts(kind, kwargs) || (f.Raises? && !IsToolSideError(f.error)) {
        f := Raises(false, ForeignError);
      }
      if !f.Clean? {
        db.mishaps := db.mishaps + 1;
      }
      var id := EffectId(provider, key);
      var result := CallSpec(profile, Receipt(kwargs, key), Applied(db.providerEffects, id), f);
      db.providerEffects := WithApplied(db.providerEffects, id, result.applied);
      return result.outcome, f;
    }

    /** `tool.lookup(key)`, for a tool that has one. */
    method Lookup(db: Store, key: Key) returns (out: Outcome<Option<Payload>>)
      requires profile.queryable
      modifies db`mishaps
      ensures !out.Crashed? && old(db.mishaps) <= db.mishaps
      ensures profile.steadyLookup ==> out.Ok? && db.mishaps == old(db.mishaps)
      ensures out.Ok? ==> out.value == AskSpec(profile, Applied(db.providerEffects, EffectId(provider, key)), false)
    {
      var raises: bool := *;
      if raises && !profile.steadyLookup {
        db.mishaps := db.mishaps + 1;
        return Raised(ForeignError);
      }
      var rows := Applied(db.providerEffects, EffectId(provider, key));
      return Ok(if rows == [] then None else Some(rows[0]));
    }

    /** `tool.call` of the read tool. An unknown employee is a permanent error. */
    method Read(db: Store, runId: string, kwargs: Kwargs) returns (out: Outcome<Payload>)
      modifies db`calls, db`mishaps
      ensures out.Ok? ==>
        && kwargs.EmployeeArgs?
        && kwargs.employeeId in directory
        && out.value == EmployeeRecord(directory[kwargs.employeeId])
      ensures out.Raised? ==> IsToolSideError(out.error)
      ensures db.calls == old(db.calls)[runId := CallsFor(old(db.calls), runId) + 1]
      ensures old(db.mishaps) <= db.mishaps
      ensures db.mishaps == old(db.mishaps) && kwargs.EmployeeArgs? ==>
        if kwargs.employeeId in directory then out.Ok? else out == Raised(PermanentToolError)
      ensures out.Crashed? ==> old(db.mishaps) < db.mishaps
    {
      db.calls := db.calls[runId := CallsFor(db.calls, runId) + 1];
      var f: Fault := *;
      if !kwargs.EmployeeArgs? || (f.Raises? && !IsToolSideError(f.error)) {
        f := Raises(false, ForeignError);
      }
      if !f.Clean? {
        db.mishaps := db.mishaps + 1;
        return if f.Raises? then Raised(f.error) else Crashed;
      }
      if kwargs.employeeId !in directory {
        return Raised(PermanentToolError);
      }
      return Ok(EmployeeRecord(directory[kwargs.employeeId]));
    }
  }

  // ------------------------------------------------------------------ registry

  predicate NamesDiffer(tools: seq<Tool>) {
    forall i, j :: 0 <= i < j < |tools| ==> tools[i].spec.name != tools[j].spec.name
  }

  class ToolRegistry {
    var tools: map<string, Tool>

    constructor ()
      ensures tools == map[]
    {
      tools := map[];
    }

    /** The constructor's loop: registers the list in order; a name used twice is an error. */
    method RegisterAll(initial: seq<Tool>) returns (out: Outcome<()>)
      requires tools == map[]
      modifies this
      ensures out == if NamesDiffer(initial) then Ok(()) else Raised(ValueError)
      ensures out.Ok? ==>
        && (forall i :: 0 <= i < |initial| ==>
              initial[i].spec.name in tools && tools[initial[i].spec.name] == initial[i])
        && (forall name :: name in tools ==> exists i :: 0 <= i < |initial| && initial[i].spec.name == name)
    {
      for i := 0 to |initial|
        invariant NamesDiffer(initial[..i])
        invariant forall k :: 0 <= k < i ==>
          initial[k].spec.name in tools && tools[initial[k].spec.name] == initial[k]
        invariant forall name :: name in tools ==> exists k :: 0 <= k < i && initial[k].spec.name == name
      {
        var added := Register(initial[i]);
        if added.Raised? {
          return added;
        }
      }
      assert initial[..|initial|] == initial;
      return Ok(());
    }

    method Register(tool: Tool) returns (out: Outcome<()>)
      modifies this
      ensures tool.spec.name in old(tools) ==> out == Raised(ValueError) && tools == old(tools)
      ensures tool.spec.name !in old(tools) ==> out == Ok(()) && tools == old(tools)[tool.spec.name := tool]
    {
      if tool.spec.name in tools {
        return Raised(ValueError);
      }
      tools := tools[tool.spec.name := tool];
      return Ok(());
    }

    /** Both ways to miss are the same permanent refusal. */
    method Resolve(name: string, allowlist: set<string>) returns (tool: Tool?)
      ensures tool != null <==> name in allowlist && name in tools
      ensures tool != null ==> tool == tools[name]
    {
      if name !in allowlist {
        return null;
      }
      if name !in tools {
        return null;
      }
      return tools[name];
    }
  }
}
