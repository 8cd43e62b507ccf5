/** `src/core/system_core.rs` of SolidArx-Framework: `CoreSystem::new` also builds a
    connection manager unless no database is configured, and `run` first bootstraps the
    database (connect, then scrape and generate the default and the dev model tables),
    then initialises the enabled modules of the application type and finally rejects a
    build that lacks one of the type's required features. */
module SolidSystemCore {
  import opened Common
  import opened ModuleInit
  import opened MemoryManagement
  import TableScraper
  import ConnectionManagement

  /** SolidArx-Framework's `ApplicationType`: the five application types and `None`. */
  datatype SolidAppType = App(appType: AppType) | NoAppType

  datatype SolidCoreConfig = SolidCoreConfig(appType: SolidAppType, maxThreads: nat)

  datatype CoreSystem = CoreSystem(
    config: SolidCoreConfig,
    memoryManager: MemoryManager,
    connectionManager: Option<ConnectionManagement.ConnectionManager>)

  /** `CoreSystem::new(config, memory_config, database_config)`. `memory` is what this
      draft's `MemoryManager::new` returned (that constructor is not part of this model);
      `database` is `None` for `DatabaseType::None`. */
  function New(config: SolidCoreConfig, memory: Result<MemoryManager, CoreError>,
               database: Option<ConnectionManagement.DatabaseType>): (r: Result<CoreSystem, CoreError>)
    ensures r.Err? <==> memory.Err?
    ensures r.Err? ==> r.error == InitializationError(Display(memory.error))
    ensures r.Ok? ==> r.value.config == config && r.value.memoryManager == memory.value
    ensures r.Ok? ==> (r.value.connectionManager.Some? <==> database.Some?)
    ensures r.Ok? && database.Some? ==>
      r.value.connectionManager.value.config == database.value.config
  {
    var manager :- WrapMemoryError(memory);
    var connectionManager :=
      match database
      case None => None
      case Some(db) => Some(ConnectionManagement.New(db));
    Ok(CoreSystem(config, manager, connectionManager))
  }

  // ---------------------------------------------------------------------------
  // Database bootstrap

  /** The database side of `run`, as inputs: the outcome of `initialize_connection`, the
      file system the scraper reads, and the outcome of `generate_tables` for each models
      directory (an error is its text). */
  datatype Database = Database(
    connect: Result<(), string>,
    fs: TableScraper.FileSystem,
    generate: string -> Result<(), string>)

  const DefaultModels: string := "src/crud/models/default"
  const DevModels: string := "src/crud/models/dev"

  datatype BootStep = Connect | ScrapeModels(path: string) | GenerateTables(path: string)

  /** The bootstrap steps, in the order `run` takes them. */
  const BootOrder: seq<BootStep> :=
    [Connect, ScrapeModels(DefaultModels), GenerateTables(DefaultModels), ScrapeModels(DevModels), GenerateTables(DevModels)]

  /** What one step returns. */
  function StepOutcome(db: Database, step: BootStep): Result<(), string> {
    match step
    case Connect => db.connect
    case ScrapeModels(path) =>
      (match TableScraper.ScrapeResult(db.fs, path)
       case Ok(_) => Ok(())
       case Err(e) => Err(e))
    case GenerateTables(path) => db.generate(path)
  }

  /** The bootstrap's result and the steps it took. */
  datatype Boot = Boot(result: Result<(), CoreError>, steps: seq<BootStep>)

  /** The bootstrap: the steps of `BootOrder` until one fails. Its errors reach `run`'s
      caller through `?` with their text. */
  function Bootstrap(db: Database): (b: Boot)
    ensures 0 < |b.steps| && b.steps <= BootOrder
    ensures forall j :: 0 <= j < |b.steps| - 1 ==> StepOutcome(db, b.steps[j]).Ok?
    ensures b.result.Ok? <==> StepOutcome(db, b.steps[|b.steps| - 1]).Ok?
    ensures b.result.Ok? ==> b.steps == BootOrder
    ensures b.result.Err? ==> b.result.error == GenericError(StepOutcome(db, b.steps[|b.steps| - 1]).error)
  {
    if StepOutcome(db, Connect).Err? then
      Boot(Err(GenericError(StepOutcome(db, Connect).error)), BootOrder[..1])
    else if StepOutcome(db, ScrapeModels(DefaultModels)).Err? then
      Boot(Err(GenericError(StepOutcome(db, ScrapeModels(DefaultModels)).error)), BootOrder[..2])
    else if StepOutcome(db, GenerateTables(DefaultModels)).Err? then
      Boot(Err(GenericError(StepOutcome(db, GenerateTables(DefaultModels)).error)), BootOrder[..3])
    else if StepOutcome(db, ScrapeModels(DevModels)).Err? then
      Boot(Err(GenericError(StepOutcome(db, ScrapeModels(DevModels)).error)), BootOrder[..4])
    else if StepOutcome(db, GenerateTables(DevModels)).Err? then
      Boot(Err(GenericError(StepOutcome(db, GenerateTables(DevModels)).error)), BootOrder)
    else
      Boot(Ok(()), BootOrder)
  }

  /** The database part of `run`: skipped (with a warning) without a connection manager. */
  method BootstrapDatabase(cs: CoreSystem, db: Database) returns (b: Boot)
    ensures cs.connectionManager.None? ==> b == Boot(Ok(()), [])
    ensures cs.connectionManager.Some? ==> b == Bootstrap(db)
  {
    if cs.connectionManager.None? {
      return Boot(Ok(()), []);
    }
    var connected := db.connect;
    if connected.Err? {
      return Boot(Err(GenericError(connected.error)), BootOrder[..1]);
    }
    var scraped, processed := TableScraper.Scrape(DefaultModels, db.fs);
    if scraped.Err? {
      return Boot(Err(GenericError(scraped.error)), BootOrder[..2]);
    }
    var generated := db.generate(DefaultModels);
    if generated.Err? {
      return Boot(Err(GenericError(generated.error)), BootOrder[..3]);
    }
    scraped, processed := TableScraper.Scrape(DevModels, db.fs);
    if scraped.Err? {
      return Boot(Err(GenericError(scraped.error)), BootOrder[..4]);
    }
    generated := db.generate(DevModels);
    if generated.Err? {
      return Boot(Err(GenericError(generated.error)), BootOrder);
    }
    return Boot(Ok(()), BootOrder);
  }

  // ---------------------------------------------------------------------------
  // Required features

  /** A feature an application type requires, and the error naming it. */
  datatype Requirement = Requirement(feature: string, message: string)

  /** The message naming the module `name` that `app` cannot run without. */
  function Missing(name: string, app: string): string {
    name + " module is required for " + app
  }

  /** The `#[cfg(not(feature = ..))] return Err(..)` checks of each application type, in
      order. */
  function Required(app: AppType): seq<Requirement> {
    match app
    case WebApp =>
      [Requirement("auth", Missing("Authentication", "WebApp")),
       Requirement("crud", Missing("CRUD", "WebApp")),
       Requirement("api", Missing("API", "WebApp")),
       Requirement("frontend", Missing("Frontend", "WebApp"))]
    case ApiBackend =>
      [Requirement("auth", Missing("Authentication", "API Backend")),
       Requirement("crud", Missing("CRUD", "API Backend")),
       Requirement("api", Missing("API", "API Backend"))]
    case DesktopApp =>
      [Requirement("auth", Missing("Authentication", "Desktop App")),
       Requirement("crud", Missing("CRUD", "Desktop App")),
       Requirement("file_management", Missing("File Management", "Desktop App")),
       Requirement("frontend", Missing("Frontend", "Desktop App"))]
    case AutomationScript =>
      [Requirement("task_automation", Missing("Task Automation", "Automation Script")),
       Requirement("file_management", Missing("File Management", "Automation Script"))]
    case EmbeddedSystem => []
  }

  /** The message of the first requirement whose feature is not compiled in. */
  function FirstMissing(reqs: seq<Requirement>, features: set<string>): (m: Option<string>)
    ensures m.None? <==> forall j :: 0 <= j < |reqs| ==> reqs[j].feature in features
    ensures m.Some? ==>
      exists j :: 0 <= j < |reqs| && reqs[j].feature !in features && m.value == reqs[j].message
        && forall i :: 0 <= i < j ==> reqs[i].feature in features
  {
    if reqs == [] then None
    else if reqs[0].feature !in features then Some(reqs[0].message)
    else FirstMissing(reqs[1..], features)
  }

  /** What `run` returns after the bootstrap: the module sequence's failure, else the
      first missing requirement, else success; `ConfigurationError` for no application
      type. */
  function AfterBootstrap(app: SolidAppType, features: set<string>, init: Initialisers): (r: Result<(), CoreError>)
  {
    match app
    case NoAppType => Err(ConfigurationError("Tipo di applicazione non supportato considera implementazione"))
    case App(a) =>
      var t := RunAll(FeatureGatedPlan(a), features, init);
      if t.result.Err? then t.result
      else match FirstMissing(Required(a), features)
        case Some(message) => Err(UnsupportedOperationError(message))
        case None => Ok(())
  }

  /** One `#[cfg(not(feature = ..))]` check: `reqs` is the rest of the type's checks. */
  method CheckRequired(ghost reqs: seq<Requirement>, req: Requirement, features: set<string>)
    returns (missing: Option<string>, ghost rest: seq<Requirement>)
    requires reqs != [] && reqs[0] == req
    ensures rest == reqs[1..]
    ensures missing.Some? ==> missing == FirstMissing(reqs, features)
    ensures missing.None? ==> FirstMissing(rest, features) == FirstMissing(reqs, features)
  {
    rest := reqs[1..];
    if req.feature !in features {
      return Some(req.message), rest;
    }
    return None, rest;
  }

  /** `run`: the database bootstrap, then the module sequence of the application type,
      then its required-feature checks. `boot` lists the bootstrap steps taken and `t` the
      module sequence. */
  method Run(cs: CoreSystem, features: set<string>, init: Initialisers, db: Database)
    returns (r: Result<(), CoreError>, boot: seq<BootStep>, t: Trace)
    ensures cs.connectionManager.None? ==> boot == []
    ensures cs.connectionManager.Some? ==> boot == Bootstrap(db).steps
    ensures cs.connectionManager.Some? && Bootstrap(db).result.Err? ==>
      r == Bootstrap(db).result && t == Start
    ensures cs.connectionManager.None? || Bootstrap(db).result.Ok? ==>
      r == AfterBootstrap(cs.config.appType, features, init)
    ensures cs.config.appType.App? && (cs.connectionManager.None? || Bootstrap(db).result.Ok?) ==>
      t == RunAll(FeatureGatedPlan(cs.config.appType.appType), features, init)
  {
    var b := BootstrapDatabase(cs, db);
    boot := b.steps;
    t := Start;
    if b.result.Err? {
      return b.result, boot, t;
    }
    match cs.config.appType
    case NoAppType =>
      return Err(ConfigurationError("Tipo di applicazione non supportato considera implementazione")), boot, t;
    case App(a) =>
      t := RunFeatureGated(a, features, init);
      if t.result.Err? {
        return t.result, boot, t;
      }
      r := CheckAllRequired(a, features);
  }

  /** The `#[cfg(not(feature = ..))] return Err(UnsupportedOperationError(..))` lines of
      `run` for application type `app`. */
  method CheckAllRequired(app: AppType, features: set<string>) returns (r: Result<(), CoreError>)
    ensures r == match FirstMissing(Required(app), features)
      case Some(message) => Err(UnsupportedOperationError(message))
      case None => Ok(())
  {
    ghost var reqs := Required(app);
    var missing: Option<string> := None;
    r := Ok(());
    match app
    case WebApp =>
      missing, reqs := CheckRequired(reqs, Requirement("auth", Missing("Authentication", "WebApp")), features);
      if missing.Some? { return Err(UnsupportedOperationError(missing.value)); }
      missing, reqs := CheckRequired(reqs, Requirement("crud", Missing("CRUD", "WebApp")), features);
      if missing.Some? { return Err(UnsupportedOperationError(missing.value)); }
      missing, reqs := CheckRequired(reqs, Requirement("api", Missing("API", "WebApp")), features);
      if missing.Some? { return Err(UnsupportedOperationError(missing.value)); }
      missing, reqs := CheckRequired(reqs, Requirement("frontend", Missing("Frontend", "WebApp")), features);
      if missing.Some? { return Err(UnsupportedOperationError(missing.value)); }
    case ApiBackend =>
      missing, reqs := CheckRequired(reqs, Requirement("auth", Missing("Authentication", "API Backend")), features);
      if missing.Some? { return Err(UnsupportedOperationError(missing.value)); }
      missing, reqs := CheckRequired(reqs, Requirement("crud", Missing("CRUD", "API Backend")), features);
      if missing.Some? { return Err(UnsupportedOperationError(missing.value)); }
      missing, reqs := CheckRequired(reqs, Requirement("api", Missing("API", "API Backend")), features);
      if missing.Some? { return Err(UnsupportedOperationError(missing.value)); }
    case DesktopApp =>
      missing, reqs := CheckRequired(reqs, Requirement("auth", Missing("Authentication", "Desktop App")), features);
      if missing.Some? { return Err(UnsupportedOperationError(missing.value)); }
      missing, reqs := CheckRequired(reqs, Requirement("crud", Missing("CRUD", "Desktop App")), features);
      if missing.Some? { return Err(UnsupportedOperationError(missing.value)); }
      missing, reqs := CheckRequired(reqs, Requirement("file_management", Missing("File Management", "Desktop App")), features);
      if missing.Some? { return Err(UnsupportedOperationError(missing.value)); }
      missing, reqs := CheckRequired(reqs, Requirement("frontend", Missing("Frontend", "Desktop App")), features);
      if missing.Some? { return Err(UnsupportedOperationError(missing.value)); }
    case AutomationScript =>
      missing, reqs := CheckRequired(reqs, Requirement("task_automation", Missing("Task Automation", "Automation Script")), features);
      if missing.Some? { return Err(UnsupportedOperationError(missing.value)); }
      missing, reqs := CheckRequired(reqs, Requirement("file_management", Missing("File Management", "Automation Script")), features);
      if missing.Some? { return Err(UnsupportedOperationError(missing.value)); }
    case EmbeddedSystem =>
  }

  // ---------------------------------------------------------------------------
  // Properties of `run`

  /** The required features of each application type are exactly the gates of its
      modules, in the same order. */
  lemma RequiredAreGates(app: AppType)
    ensures |Required(app)| == |FeatureGatedPlan(app)|
    ensures forall i :: 0 <= i < |Required(app)| ==>
      FeatureGatedPlan(app)[i].initGate == Some(Required(app)[i].feature)
  {
    match app
    case WebApp =>
    case ApiBackend =>
    case DesktopApp =>
    case AutomationScript =>
    case EmbeddedSystem =>
  }

  /** After a successful bootstrap, `run` succeeds exactly when every required feature is
      compiled in and every module initialiser of the application type succeeds. */
  lemma RunSucceedsIff(app: AppType, features: set<string>, init: Initialisers)
    ensures var plan := FeatureGatedPlan(app);
      AfterBootstrap(App(app), features, init).Ok? <==>
        (forall j :: 0 <= j < |Required(app)| ==> Required(app)[j].feature in features)
        && (forall i :: 0 <= i < |plan| ==> init(plan[i].name).Ok?)
  {
    var plan := FeatureGatedPlan(app);
    var reqs := Required(app);
    RequiredAreGates(app);
    RunAllSucceedsIff(plan, features, init);
    if forall j :: 0 <= j < |reqs| ==> reqs[j].feature in features {
      forall i | 0 <= i < |plan|
        ensures Enabled(plan[i].initGate, features)
      {
        assert reqs[i].feature in features;
      }
    }
  }

  /** A WebApp build without `crud` fails after the bootstrap, whatever the initialisers
      do. */
  lemma WebAppNeedsCrud(features: set<string>, init: Initialisers)
    requires "crud" !in features
    ensures AfterBootstrap(App(WebApp), features, init).Err?
  {
    RunSucceedsIff(WebApp, features, init);
    assert Required(WebApp)[1].feature == "crud";
  }

  /** A bootstrap failure ends `run` before any module initialiser is called, and a later
      bootstrap step's outcome does not matter once an earlier one failed. */
  lemma BootstrapStopsEarly(db1: Database, db2: Database)
    requires db1.connect.Err? && db2.connect == db1.connect
    ensures Bootstrap(db1) == Bootstrap(db2)
    ensures Bootstrap(db1).steps == [Connect]
  {
  }
}
