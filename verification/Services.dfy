/** The one place where the application is wired together against one database. */
module Services {
  import opened Domain
  import opened Durable
  import opened Executor
  import opened Graph
  import opened Ledger
  import opened LedgerProtocol
  import opened Nodes
  import opened Plan
  import opened RunService
  import opened RunTable
  import opened SideEffectTable
  import opened Tools
  import opened TraceTable

  /** The four tools of the package, all behind the registry. */
  method BuildRegistry(directory: map<string, Employee>, profile: ToolProfile) returns (registry: ToolRegistry)
    requires Truthful(profile)
    ensures ToolsWired(registry) && registry.tools[SpecOf(HrDirectory).name].directory == directory
  {
    var hr := new Tool(HrDirectory, profile, directory);
    var iam := new Tool(Iam, profile, map[]);
    var paperwork := new Tool(SendPaperwork, profile, map[]);
    var archive := new Tool(ArchiveRecord, profile, map[]);
    registry := new ToolRegistry();
    var initial := [hr, iam, paperwork, archive];
    var registered := registry.RegisterAll(initial);
    assert initial[0] == hr && initial[1] == iam && initial[2] == paperwork && initial[3] == archive;
  }

  /** A service over the database. Nothing about any run is held in memory: the database
      alone decides what the service will do. */
  method BuildService(db: Store, directory: map<string, Employee>, profile: ToolProfile, maxAttempts: int, llm: LlmProvider)
    returns (service: Service)
    requires Truthful(profile)
    ensures service.Wired() && service.db == db && service.Directory() == directory
    ensures service.graph.workflow.executor.maxAttempts == maxAttempts
  {
    hide ToolsWired, IsLinear, Truthful;
    var runs := new RunRepository(db);
    var trace := new TraceRepository(db);
    var sideEffects := new SideEffectRepository(db);
    var registry := BuildRegistry(directory, profile);
    var ledger := new SideEffectLedger(sideEffects);
    var executor := new ToolExecutor(registry, ledger, runs, trace, maxAttempts);
    var workflow := new Workflow(runs, trace, executor, llm);
    var built := BuildGraph();
    var graph := new CompiledGraph(workflow, built.edges);
    service := new Service(runs, graph);
  }
}
