/** `src/core/system_core.rs` of ArxFramework: `CoreSystem::new` builds the memory
    manager; `run` calls, for the configured application type, each module initialiser
    whose feature is compiled in, through `init_module!`, and stops at the first failure. */
module ArxSystemCore {
  import opened Common
  import opened ModuleInit
  import opened MemoryConfiguration
  import opened MemoryManagement

  datatype CoreSystem = CoreSystem(config: CoreConfig, memoryManager: MemoryManager)

  /** `CoreSystem::new(config, memory_config)`: the memory manager's failure would become
      an `InitializationError`; the manager never fails, so neither does `new`. */
  method New(config: CoreConfig, memoryConfig: MemoryConfig) returns (r: Result<CoreSystem, CoreError>)
    ensures r.Ok?
    ensures r.value.config == config
    ensures fresh(r.value.memoryManager)
    ensures r.value.memoryManager.allocationStrategy == StrategyFor(config.appType)
    ensures r.value.memoryManager.memoryConfig == memoryConfig
    ensures r.value.memoryManager.Valid()
  {
    var manager := MemoryManager.New(config.appType, memoryConfig);
    r := match WrapMemoryError(manager)
      case Ok(m) => Ok(CoreSystem(config, m))
      case Err(e) => Err(e);
  }

  /** `run`: the modules of `FeatureGatedPlan` for the application type, each under its
      feature gate; the returned trace's result is what `run` returns. */
  method Run(cs: CoreSystem, features: set<string>, init: Initialisers) returns (t: Trace)
    ensures t == RunAll(FeatureGatedPlan(cs.config.appType), features, init)
  {
    t := RunFeatureGated(cs.config.appType, features, init);
  }

  /** Without required-feature checks, a build succeeds exactly when the initialisers of
      the modules it compiles in succeed: a module whose feature is off is skipped. */
  lemma RunSucceedsIff(app: AppType, features: set<string>, init: Initialisers)
    ensures var plan := FeatureGatedPlan(app);
      RunAll(plan, features, init).result.Ok? <==>
        forall i :: 0 <= i < |plan| && plan[i].initGate.value in features ==> init(plan[i].name).Ok?
  {
    RunAllSucceedsIff(FeatureGatedPlan(app), features, init);
  }

  /** A WebApp build without `crud` never calls the CRUD initialiser. */
  lemma WebAppWithoutCrud(features: set<string>, init: Initialisers)
    requires "crud" !in features
    ensures "CRUD" !in RunAll(FeatureGatedPlan(WebApp), features, init).called
  {
    var plan := FeatureGatedPlan(WebApp);
    RunAllCalls(plan, features, init);
    InCalled(plan, features, "CRUD");
    var names := Called(plan, features);
    var k := FirstFailure(names, init);
    assert names[..CallCount(k, |names|)] <= names;
  }
}
