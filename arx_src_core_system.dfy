/** `src/core/core_system.rs` of ArxFramework: `run` calls every module initialiser of
    the application type through `init_module!`, ungated except for the file-management
    module of an automation build, and stops at the first failure. Its
    `initialize_module` helper maps an initialiser's error the same way. */
module ArxSrcCoreSystem {
  import opened Common
  import opened ModuleInit
  import opened MemoryConfiguration
  import opened MemoryManagement

  datatype CoreSystem = CoreSystem(config: CoreConfig, memoryManager: MemoryManager)

  /** `CoreSystem::new(core_config, memory_config)`. */
  method New(config: CoreConfig, memoryConfig: MemoryConfig) returns (r: Result<CoreSystem, CoreError>)
    ensures r.Ok?
    ensures r.value.config == config
    ensures fresh(r.value.memoryManager)
    ensures r.value.memoryManager.allocationStrategy == StrategyFor(config.appType)
    ensures r.value.memoryManager.memoryConfig == memoryConfig
    ensures r.value.memoryManager.Valid()
  {
    var manager := MemoryManager.New(config.appType, memoryConfig);
    r := match WrapMemoryError(manager)
      case Ok(m) => Ok(CoreSystem(config, m))
      case Err(e) => Err(e);
  }

  /** An ungated `init_module!`. */
  function Plain(name: string): Module {
    Gated(name, None)
  }

  /** The sequence `run` performs for each application type. */
  function Plan(app: AppType): seq<Module> {
    match app
    case WebApp => [Plain("Authentication"), Plain("CRUD"), Plain("API Layer"), Plain("Frontend")]
    case ApiBackend => [Plain("Authentication"), Plain("CRUD"), Plain("API Layer")]
    case DesktopApp => [Plain("Authentication"), Plain("CRUD"), Plain("File Management"), Plain("Frontend")]
    case AutomationScript => [Plain("Task Automation"), Gated("File Management", Some("file_management"))]
    case EmbeddedSystem => []
  }

  /** `run`. */
  method Run(cs: CoreSystem, features: set<string>, init: Initialisers) returns (t: Trace)
    ensures t == RunAll(Plan(cs.config.appType), features, init)
  {
    t := Start;
    ghost var todo := Plan(cs.config.appType);
    match cs.config.appType
    case WebApp =>
      t, todo := InitStep(t, todo, Plain("Authentication"), features, init);
      if t.result.Err? { return; }
      t, todo := InitStep(t, todo, Plain("CRUD"), features, init);
      if t.result.Err? { return; }
      t, todo := InitStep(t, todo, Plain("API Layer"), features, init);
      if t.result.Err? { return; }
      t, todo := InitStep(t, todo, Plain("Frontend"), features, init);
      if t.result.Err? { return; }
    case ApiBackend =>
      t, todo := InitStep(t, todo, Plain("Authentication"), features, init);
      if t.result.Err? { return; }
      t, todo := InitStep(t, todo, Plain("CRUD"), features, init);
      if t.result.Err? { return; }
      t, todo := InitStep(t, todo, Plain("API Layer"), features, init);
      if t.result.Err? { return; }
    case DesktopApp =>
      t, todo := InitStep(t, todo, Plain("Authentication"), features, init);
      if t.result.Err? { return; }
      t, todo := InitStep(t, todo, Plain("CRUD"), features, init);
      if t.result.Err? { return; }
      t, todo := InitStep(t, todo, Plain("File Management"), features, init);
      if t.result.Err? { return; }
      t, todo := InitStep(t, todo, Plain("Frontend"), features, init);
      if t.result.Err? { return; }
    case AutomationScript =>
      t, todo := InitStep(t, todo, Plain("Task Automation"), features, init);
      if t.result.Err? { return; }
      t, todo := InitStep(t, todo, Gated("File Management", Some("file_management")), features, init);
      if t.result.Err? { return; }
    case EmbeddedSystem =>
  }

  /** An automation build calls the task-automation initialiser and then, only when the
      `file_management` feature is compiled in and task automation came up, the
      file-management one. */
  lemma AutomationFileManagement(features: set<string>, init: Initialisers)
    ensures var t := RunAll(Plan(AutomationScript), features, init);
      && ("File Management" in t.called <==>
            "file_management" in features && init("Task Automation").Ok?)
      && (t.result.Ok? <==>
            init("Task Automation").Ok? && ("file_management" in features ==> init("File Management").Ok?))
  {
    var plan := Plan(AutomationScript);
    var t1 := Advance(Start, plan[0], features, init);
    RunFromStep(Start, plan, features, init);
    RunFromStep(t1, plan[1..], features, init);
    assert plan[1..][1..] == [];
    if t1.result.Ok? {
      assert t1.called == ["Task Automation"];
    }
  }
}
