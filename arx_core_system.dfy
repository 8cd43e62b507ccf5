/** `core/core_system.rs` of ArxFramework: `run` calls `initialize_module` for each module
    of the application type in turn, with no feature gates except one, and reports each
    module operational with `monitor_module_status` after its initialiser returns. */
module ArxCoreSystem {
  import opened Common
  import opened ModuleInit
  import opened MemoryConfiguration
  import opened MemoryManagement

  datatype CoreSystem = CoreSystem(config: CoreConfig, memoryManager: MemoryManager)

  /** `CoreSystem::new(config)`. The memory manager is called with the application type
      alone; it is built here with the default memory configuration. */
  method New(config: CoreConfig) returns (r: Result<CoreSystem, CoreError>)
    ensures r.Ok?
    ensures r.value.config == config
    ensures fresh(r.value.memoryManager)
    ensures r.value.memoryManager.allocationStrategy == StrategyFor(config.appType)
    ensures r.value.memoryManager.memoryConfig == Default()
    ensures r.value.memoryManager.Valid()
  {
    var manager := MemoryManager.New(config.appType, Default());
    r := match WrapMemoryError(manager)
      case Ok(m) => Ok(CoreSystem(config, m))
      case Err(e) => Err(e);
  }

  /** An ungated module: `initialize_module(name, ..)?` then `monitor_module_status(name, true)`. */
  function Plain(name: string): Module {
    Gated(name, None)
  }

  /** The sequence `run` performs, with the file-management report of AutomationScript
      under the same gate as its initialiser. */
  function Plan(app: AppType): seq<Module> {
    match app
    case WebApp =>
      [Plain("Core System"), Plain("Authentication"), Plain("CRUD"), Plain("API Layer"),
       Plain("Monitoring"), Plain("Frontend")]
    case ApiBackend =>
      [Plain("Core System"), Plain("Authentication"), Plain("CRUD"), Plain("API Layer"), Plain("Monitoring")]
    case DesktopApp =>
      [Plain("Core System"), Plain("Authentication"), Plain("CRUD"), Plain("File Management"),
       Plain("Monitoring"), Plain("Frontend")]
    case AutomationScript =>
      [Plain("Core System"), Plain("Monitoring"), Plain("Task Automation"),
       Gated("File Management", Some("file_management"))]
    case EmbeddedSystem =>
      [Plain("Core System"), Plain("Monitoring")]
  }

  /** The sequence as written: the `#[cfg(feature = "file_management")]` covers only the
      file-management initialiser of AutomationScript, not its report. */
  function PlanAsWritten(app: AppType): seq<Module> {
    if app == AutomationScript then
      [Plain("Core System"), Plain("Monitoring"), Plain("Task Automation"),
       Module("File Management", Some("file_management"), None)]
    else Plan(app)
  }

  /** `run` as written. */
  method RunAsWritten(cs: CoreSystem, features: set<string>, init: Initialisers) returns (t: Trace)
    ensures t == RunAll(PlanAsWritten(cs.config.appType), features, init)
  {
    t := Start;
    ghost var todo := PlanAsWritten(cs.config.appType);
    if cs.config.appType == AutomationScript {
      t, todo := InitStep(t, todo, Plain("Core System"), features, init);
      if t.result.Err? { return; }
      t, todo := InitStep(t, todo, Plain("Monitoring"), features, init);
      if t.result.Err? { return; }
      t, todo := InitStep(t, todo, Plain("Task Automation"), features, init);
      if t.result.Err? { return; }
      t, todo := InitStep(t, todo, Module("File Management", Some("file_management"), None), features, init);
      if t.result.Err? { return; }
    } else {
      t := Run(cs, features, init);
    }
  }

  /** `run`, with the file-management report gated like its initialiser. */
  method Run(cs: CoreSystem, features: set<string>, init: Initialisers) returns (t: Trace)
    ensures t == RunAll(Plan(cs.config.appType), features, init)
  {
    t := Start;
    ghost var todo := Plan(cs.config.appType);
    match cs.config.appType
    case WebApp =>
      t, todo := InitStep(t, todo, Plain("Core System"), features, init);
      if t.result.Err? { return; }
      t, todo := InitStep(t, todo, Plain("Authentication"), features, init);
      if t.result.Err? { return; }
      t, todo := InitStep(t, todo, Plain("CRUD"), features, init);
      if t.result.Err? { return; }
      t, todo := InitStep(t, todo, Plain("API Layer"), features, init);
      if t.result.Err? { return; }
      t, todo := InitStep(t, todo, Plain("Monitoring"), features, init);
      if t.result.Err? { return; }
      t, todo := InitStep(t, todo, Plain("Frontend"), features, init);
      if t.result.Err? { return; }
    case ApiBackend =>
      t, todo := InitStep(t, todo, Plain("Core System"), features, init);
      if t.result.Err? { return; }
      t, todo := InitStep(t, todo, Plain("Authentication"), features, init);
      if t.result.Err? { return; }
      t, todo := InitStep(t, todo, Plain("CRUD"), features, init);
      if t.result.Err? { return; }
      t, todo := InitStep(t, todo, Plain("API Layer"), features, init);
      if t.result.Err? { return; }
      t, todo := InitStep(t, todo, Plain("Monitoring"), features, init);
      if t.result.Err? { return; }
    case DesktopApp =>
      t, todo := InitStep(t, todo, Plain("Core System"), features, init);
      if t.result.Err? { return; }
      t, todo := InitStep(t, todo, Plain("Authentication"), features, init);
      if t.result.Err? { return; }
      t, todo := InitStep(t, todo, Plain("CRUD"), features, init);
      if t.result.Err? { return; }
      t, todo := InitStep(t, todo, Plain("File Management"), features, init);
      if t.result.Err? { return; }
      t, todo := InitStep(t, todo, Plain("Monitoring"), features, init);
      if t.result.Err? { return; }
      t, todo := InitStep(t, todo, Plain("Frontend"), features, init);
      if t.result.Err? { return; }
    case AutomationScript =>
      t, todo := InitStep(t, todo, Plain("Core System"), features, init);
      if t.result.Err? { return; }
      t, todo := InitStep(t, todo, Plain("Monitoring"), features, init);
      if t.result.Err? { return; }
      t, todo := InitStep(t, todo, Plain("Task Automation"), features, init);
      if t.result.Err? { return; }
      t, todo := InitStep(t, todo, Gated("File Management", Some("file_management")), features, init);
      if t.result.Err? { return; }
    case EmbeddedSystem =>
      t, todo := InitStep(t, todo, Plain("Core System"), features, init);
      if t.result.Err? { return; }
      t, todo := InitStep(t, todo, Plain("Monitoring"), features, init);
      if t.result.Err? { return; }
  }

  /** As written, an automation build without `file_management` reports file management
      operational although its initialiser was never called. */
  lemma ReportWithoutInit(features: set<string>, init: Initialisers)
    requires "file_management" !in features
    requires init("Core System").Ok? && init("Monitoring").Ok? && init("Task Automation").Ok?
    ensures var t := RunAll(PlanAsWritten(AutomationScript), features, init);
      && t.result.Ok?
      && "File Management" in t.reported
      && "File Management" !in t.called
  {
    var plan := PlanAsWritten(AutomationScript);
    var t1 := Advance(Start, plan[0], features, init);
    var t2 := Advance(t1, plan[1], features, init);
    var t3 := Advance(t2, plan[2], features, init);
    var t4 := Advance(t3, plan[3], features, init);
    RunFromStep(Start, plan, features, init);
    RunFromStep(t1, plan[1..], features, init);
    RunFromStep(t2, plan[2..], features, init);
    RunFromStep(t3, plan[3..], features, init);
    assert plan[1..][1..] == plan[2..] && plan[2..][1..] == plan[3..] && plan[3..][1..] == [];
    assert t3.called == ["Core System", "Monitoring", "Task Automation"];
    assert t4 == t3.(reported := t3.reported + ["File Management"]);
  }

  /** In the corrected sequence every report shares its initialiser's gate, so only
      modules whose initialiser succeeded are reported operational, for every build. */
  lemma RunReportsOnlyInitialised(app: AppType, features: set<string>, init: Initialisers)
    ensures var t := RunAll(Plan(app), features, init);
      && t.reported <= t.called
      && (forall n :: n in t.reported ==> init(n).Ok?)
  {
    ReportedOnlyAfterSuccess(Plan(app), features, init);
  }
}
