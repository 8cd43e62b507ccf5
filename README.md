# ArxFramework / SolidArx-Framework core, modelled in Dafny

The framework is a Rust application skeleton that exists in two draft copies,
`ArxFramework` and `SolidArx-Framework`. Its core, once the file system, the database
drivers, the clock and the logger are turned into inputs and outputs, is six sequential
components:

- **Model scraper** (`TableScraper`). It lists the `.rs` files of a models directory and
  collects the struct declarations of each file from its syntax tree, splicing in the
  structs of inline modules where they appear. It renders one `name` / `field:type`
  message per struct.
- **Connection managers**. Two drafts retry a database connection until `max_retries`
  failures. One backs off linearly (`ConnectionManagement`), the other by powers of the
  timeout (`PowConnectionManager`). Connect goes through the driver of the configured
  back end (`Drivers`).
- **Database configuration**. SolidArx-Framework's `DatabaseType::new` fills absent
  options from a per-profile table (`SolidNetworkConfig`). ArxFramework's returns a fixed
  configuration per profile (`ArxNetworkConfig`). The first enabled cargo profile decides
  in both (`Profiles`).
- **Memory configuration and memory manager** (`MemoryConfiguration`,
  `MemoryManagement`). The strategy is chosen by application type. The pool-based
  strategy pre-fills a FIFO pool of buffers that `allocate` pops from the front and
  `deallocate` pushes to the back.
- **CRUD operations** (`CrudOps`). The in-memory task table keyed by id: `create` and
  `read` of a `Task`, and the stub operations of both drafts.
- **Module initialisation** (`ModuleInit` and one module per draft: `ArxSystemCore`,
  `ArxCoreSystem`, `ArxSrcCoreSystem`, `SolidSystemCore`). `CoreSystem::run` calls the
  module initialisers of the configured application type in order and stops at the
  first failure with an `InitializationError`. In SolidArx-Framework a database
  bootstrap runs first and missing required features are rejected afterwards.

The cargo features a build is compiled with are an explicit `set<string>`. Module
initialisers, driver calls, directory listings, file contents, parse results and table
generation are function-typed inputs. `run` returns a `Trace`: its result, the
initialisers it called, and the modules it reported operational, in order.

## Model

| member | source | states |
|---|---|---|
| Common.MapErr | code/SolidArx-Framework/src/crud/models/table_scraper.rs:75-80 | `map_err` with a message prefix: success passes through unchanged, an error becomes the prefix followed by the original message |
| Common.Zeros | code/ArxFramework/core/memory_management.rs:36 | `vec![0u8; n]` has exactly `n` bytes and every byte is zero |
| TableScraper.FieldType | code/SolidArx-Framework/src/crud/models/table_scraper.rs:53-58 | the label is "String", "i32" or "f64" exactly when the type is that bare identifier (one segment, no arguments, no leading `::`), and "Custom" exactly when it is none of them |
| TableScraper.GenerateStructMessage | code/SolidArx-Framework/src/crud/models/table_scraper.rs:47-63 | never fails; the message is the struct name, a newline, then one `name:type` line per field in field order |
| TableScraper.FieldTextOneLine | code/SolidArx-Framework/src/crud/models/table_scraper.rs:52 | a field line, including an unnamed field's `Unnamed:…`, contains no newline when the field name has none |
| TableScraper.LinesOfFieldLines | code/SolidArx-Framework/src/crud/models/table_scraper.rs:51-60 | split into lines, the field part of a message gives back exactly one `name:type` text per field, in order |
| TableScraper.MessageLines | code/SolidArx-Framework/src/crud/models/table_scraper.rs:48-62 | a message has exactly `fields + 1` lines: the name, then each field's `name:type` in order |
| TableScraper.ParseModItems | code/SolidArx-Framework/src/crud/models/table_scraper.rs:16-36 | never fails; returns the structs of the module body, and none for a module without an inline body |
| TableScraper.ParseRsFile | code/SolidArx-Framework/src/crud/models/table_scraper.rs:73-97 | the read error or the parse error with its prefix, else the structs of the file's items in source order |
| TableScraper.CollectAppend | code/SolidArx-Framework/src/crud/models/table_scraper.rs:84-94 | the structs of two item lists in sequence are those of the first followed by those of the second |
| TableScraper.SpliceAt | code/SolidArx-Framework/src/crud/models/table_scraper.rs:21-31 | a nested item's structs appear exactly at its position, between the structs of the items before and after it |
| TableScraper.CollectIffDeclared | code/SolidArx-Framework/src/crud/models/table_scraper.rs:84-94 | a struct is returned if and only if it is declared at top level or inside inline modules, whatever its attributes; functions, impls, uses and macro calls add nothing |
| TableScraper.ItemStructsIffDeclares | code/SolidArx-Framework/src/crud/models/table_scraper.rs:20-33 | the same for a single item: a struct item gives itself, an inline module what it declares, `mod x;` and every other item nothing |
| TableScraper.FirstErr | code/SolidArx-Framework/src/crud/models/table_scraper.rs:115-116 | the first failed directory entry: it failed and every entry before it succeeded |
| TableScraper.ReadRsDir | code/SolidArx-Framework/src/crud/models/table_scraper.rs:107-125 | the loop returns exactly the listing outcome `DirFiles`: the listing error, the first entry error, or the `.rs` paths in listing order |
| TableScraper.DirFilesSpec | code/SolidArx-Framework/src/crud/models/table_scraper.rs:111-124 | the listing succeeds if and only if every entry does, and then a path is kept if and only if it is a listed entry with extension `rs` |
| TableScraper.RsFilesMembers | code/SolidArx-Framework/src/crud/models/table_scraper.rs:118-121 | a path is among the kept files if and only if it is a successful entry whose extension is `rs` |
| TableScraper.ExtensionOfName | code/SolidArx-Framework/src/crud/models/table_scraper.rs:119 | `Path::extension` of `dir/stem.ext` is `ext`, except for a hidden name such as `.rs` and for `..`, which have none |
| TableScraper.RsFileNames | code/SolidArx-Framework/src/crud/models/table_scraper.rs:119 | `dir/stem.rs` is kept |
| TableScraper.NotRsFileNames | code/SolidArx-Framework/src/crud/models/table_scraper.rs:119 | `dir/.rs` and `dir/stem.rs.bak` are not kept |
| TableScraper.RenderStructs | code/SolidArx-Framework/src/crud/models/table_scraper.rs:149-159 | one message per struct, in struct order |
| TableScraper.ScrapeStoppedAt | code/SolidArx-Framework/src/crud/models/table_scraper.rs:140-143 | when file `i` is the first that fails, the scrape fails with its error and processes no later file |
| TableScraper.ScrapeCompleted | code/SolidArx-Framework/src/crud/models/table_scraper.rs:140-162 | when every file parses, all files are processed and the scrape succeeds with every struct's message, in file order then struct order |
| TableScraper.ScrapeFilesAllParse | code/SolidArx-Framework/src/crud/models/table_scraper.rs:140-162 | the reference outcome `ScrapeFiles` of files that all parse is success with all their messages |
| TableScraper.ScrapeFilesStops | code/SolidArx-Framework/src/crud/models/table_scraper.rs:143 | the reference outcome is the first failing file's error, whatever the later files hold |
| TableScraper.Scrape | code/SolidArx-Framework/src/crud/models/table_scraper.rs:135-163 | a listing failure is returned before any file is read; otherwise the scrape stops at the first failing file or completes; the result always equals `ScrapeResult` |
| TableScraper.NoStructsIsNotAnError | code/SolidArx-Framework/src/crud/models/table_scraper.rs:145-147 | files that parse but declare no struct give success with no messages |
| ConnectionManagement.New | code/SolidArx-Framework/src/network/connection_management.rs:60-77 | the Postgres, SQLite and MongoDB variants each hand over the configuration they carry, unchanged |
| ConnectionManagement.Connect | code/SolidArx-Framework/src/network/connection_management.rs:124-151 | a connection comes from the configured back end, and an error names that back end |
| ConnectionManagement.ConnectUsesOneBackend | code/SolidArx-Framework/src/network/connection_management.rs:126-151 | drivers that agree on the configured back end give the same outcome, so only that back end's driver is used |
| ConnectionManagement.InitializeConnection | code/SolidArx-Framework/src/network/connection_management.rs:88-115 | every attempt before the last failed; success on the first working connect, with no further waits; giving up after `max(1, max_retries)` failures with the last error; the wait after failure `n` is `retry_timeout * n`, with no wait after the last failure; an unset timeout panics |
| ConnectionManagement.ExhaustRetries | code/SolidArx-Framework/src/network/connection_management.rs:103-111 | against a database that never answers: `max(1, max_retries)` attempts, one fewer waits, the last attempt's error, and `t·k(k+1)/2` seconds slept in total |
| ConnectionManagement.LinearTotal | code/SolidArx-Framework/src/network/connection_management.rs:109 | linear waits `t, 2t, …, kt` add up to `t·k(k+1)/2` |
| PowConnectionManager.New | code/SolidArx-Framework/src/network/connection_manager.rs:38-40 | the configuration is stored unchanged |
| PowConnectionManager.Connect | code/SolidArx-Framework/src/network/connection_manager.rs:88-112 | a connection comes from the configured back end's driver |
| PowConnectionManager.ConnectUsesOneBackend | code/SolidArx-Framework/src/network/connection_manager.rs:90-112 | drivers that agree on the configured back end give the same outcome |
| PowConnectionManager.InitializeConnection | code/SolidArx-Framework/src/network/connection_manager.rs:50-79 | every attempt before the last failed; the first success is returned at once; a failure is returned only after `max(1, max_retries)` attempts; the wait after failure `n` is `retry_timeout^n` |
| PowConnectionManager.ExhaustRetries | code/SolidArx-Framework/src/network/connection_manager.rs:53-75 | against a database that never answers: `max(1, max_retries)` attempts, one fewer waits, and the last attempt's error |
| PowConnectionManager.PowBackoffGrowth | code/SolidArx-Framework/src/network/connection_manager.rs:75 | the back-off strictly grows with the attempt count when the timeout is at least 2 s, and stays at 1 s or 0 s otherwise |
| PowConnectionManager.PowStrictlyIncreasing | code/SolidArx-Framework/src/network/connection_manager.rs:75 | `t^i < t^j` for `i < j` when `t >= 2` |
| PowConnectionManager.WaitsIncrease | code/SolidArx-Framework/src/network/connection_manager.rs:70-75 | the waits of a run never decrease, and strictly increase when the timeout is at least 2 s |
| Profiles.FirstEnabledIndex | code/SolidArx-Framework/src/config/network_config.rs:53-64 | the position of the first enabled profile in the order webapp, api_backend, desktop, automation, embedded; every earlier profile is disabled |
| Profiles.FirstEnabled | code/SolidArx-Framework/src/config/network_config.rs:53-64 | the profile a `cfg` chain takes: none exactly when no profile is enabled, else an enabled profile, the first in chain order |
| Profiles.EarlierProfileWins | code/SolidArx-Framework/src/config/network_config.rs:53-64 | enabling a later profile as well never changes the chosen profile |
| Profiles.FirstEnabledCases | code/SolidArx-Framework/src/config/network_config.rs:53-64 | the chosen profile, spelled out branch by branch as the `else if` chain tests it |
| SolidNetworkConfig.New | code/SolidArx-Framework/src/config/network_config.rs:33-127 | fails with the URL message exactly when no URL is given; otherwise the result is always PostgreSQL with the URL copied; a given option is kept and an absent one takes the first enabled profile's default; with a profile enabled, all fields are set |
| ArxNetworkConfig.New | code/ArxFramework/src/config/network_config.rs:29-77 | fails with "Database configuration not set for the application" exactly when no profile is enabled; otherwise returns the first enabled profile's fixed configuration, with every option set |
| ArxNetworkConfig.BackendPerProfile | code/ArxFramework/src/config/network_config.rs:31-74 | PostgreSQL exactly for webapp and api_backend, SQLite exactly for desktop and embedded, MongoDB exactly for automation |
| ArxNetworkConfig.DraftsAgreeOnDefaults | code/ArxFramework/src/config/network_config.rs:31-74 | each profile's fixed numbers equal SolidArx-Framework's defaults for it (100/3/300/5, 50/3/600/10, 5/1/1200/15, 20/5/3600/30, 1/1/600/5) |
| MemoryConfiguration.Default | code/ArxFramework/src/config/memory_config.rs:14-22 | ten buffers of 1024 bytes, memory scale one |
| MemoryConfiguration.New | code/ArxFramework/src/config/memory_config.rs:28-34 | the fields are exactly the arguments |
| MemoryConfiguration.NewRebuilds | code/ArxFramework/src/config/memory_config.rs:28-34 | rebuilding a configuration from its fields gives it back, and `new(10, 1024, 1)` is the default |
| MemoryManagement.StrategyFor | code/ArxFramework/core/memory_management.rs:25-30 | PoolBased exactly for WebApp and ApiBackend, Standard exactly for DesktopApp and AutomationScript, CustomEmbedded exactly for EmbeddedSystem |
| MemoryManagement.MemoryManager.Init | code/ArxFramework/core/memory_management.rs:43 | the manager holds the given strategy, pool and configuration |
| MemoryManagement.MemoryManager.New | code/ArxFramework/core/memory_management.rs:21-44 | never fails; the strategy of the application type; a pool exactly for PoolBased, holding `pool_size` zeroed buffers of `buffer_size` bytes |
| MemoryManagement.MemoryManager.Allocate | code/ArxFramework/core/memory_management.rs:46-71 | Standard: a zeroed buffer of the requested size, pool unchanged; PoolBased: the front buffer, removing only it, or a fresh buffer when the pool is empty, or "Pool non disponibile" without a pool; CustomEmbedded: a buffer of `buffer_size` whatever is asked; a manager from `new` never fails |
| MemoryManagement.MemoryManager.Deallocate | code/ArxFramework/core/memory_management.rs:73-94 | PoolBased: the buffer is appended at the back, or "Pool non disponibile" without a pool; the other strategies succeed and change nothing |
| MemoryManagement.PoolIsFifo | code/ArxFramework/core/memory_management.rs:55-83 | two buffers handed back to an empty pool come out in the order they went in |
| MemoryManagement.DrainFreshPool | code/ArxFramework/core/memory_management.rs:33-59 | a fresh pool hands out its `pool_size` pre-filled buffers, then falls back to fresh buffers of the requested size |
| CrudOps.KindOf | code/SolidArx-Framework/src/crud/crud_ops.rs:149-151 | the Task branch is taken exactly for a task |
| CrudOps.NewTask | code/SolidArx-Framework/src/crud/models/default/task.rs:41-70 | the given fields, kept in memory, with create/read/update/delete/list enabled and search/revoke disabled |
| CrudOps.Created | code/SolidArx-Framework/src/crud/crud_ops.rs:155-171 | the task's data with a fresh zeroed buffer of exactly `1024 × memory_scale` bytes, kept in memory |
| CrudOps.Lookup | code/SolidArx-Framework/src/crud/crud_ops.rs:214-230 | success exactly for a task id present in the table, with that task; otherwise "Task con ID {id} non trovato" for tasks and "Elemento con ID {id} non trovato" for any other model |
| CrudOps.TaskStore.constructor | code/SolidArx-Framework/src/crud/crud_ops.rs:41-46 | the shared task table `TASKS_IN_MEMORY` starts empty |
| CrudOps.TaskStore.Persist | code/SolidArx-Framework/src/crud/crud_ops.rs:174-184 | an in-memory task replaces any earlier entry under its id; a database task leaves the table unchanged |
| CrudOps.TaskStore.Create | code/SolidArx-Framework/src/crud/crud_ops.rs:148-199 | a task is rebuilt around a fresh buffer, stored under its id and returned; any other model is returned unchanged and not stored |
| CrudOps.TaskStore.Read | code/SolidArx-Framework/src/crud/crud_ops.rs:214-230 | the read outcome is `Lookup` of the current table |
| CrudOps.ReadAfterCreate | code/SolidArx-Framework/src/crud/crud_ops.rs:218-223 | after storing a task, reading its id gives it back; reads of other ids are unchanged; other models still fail |
| CrudOps.CreateThenRead | code/SolidArx-Framework/src/crud/crud_ops.rs:174-187 | a create followed by a read of the same id returns the created task both times |
| CrudOps.Update | code/SolidArx-Framework/src/crud/crud_ops.rs:234-239 | the item comes back unchanged |
| CrudOps.Delete | code/SolidArx-Framework/src/crud/crud_ops.rs:241-246 | succeeds, and as a function of the id alone it cannot touch the table |
| CrudOps.List | code/SolidArx-Framework/src/crud/crud_ops.rs:248-253 | no items |
| CrudOps.Search | code/SolidArx-Framework/src/crud/crud_ops.rs:254-259 | no items, whatever the query |
| CrudOps.Revoke | code/SolidArx-Framework/src/crud/crud_ops.rs:261-266 | succeeds and revokes nothing |
| CrudOps.TaskOperations | code/ArxFramework/src/crud/crud_ops.rs:225-253 | both drafts give a task create, read, update, delete and list; only SolidArx-Framework also gives search and revoke |
| CrudOps.DispatchAsWritten | code/SolidArx-Framework/src/crud/crud_ops.rs:149-151 | as written, the Task branch is taken exactly when the type name equals the literal `modules::default::task_model::Task` |
| CrudOps.TaskPathNeverMatches | code/SolidArx-Framework/src/crud/crud_ops.rs:151 | the real type name of `Task` never equals that literal, whatever the crate is called |
| CrudOps.TaskNeverReadAsWritten | code/SolidArx-Framework/src/crud/crud_ops.rs:214-228 | as written, every task read fails with the other-model message |
| ModuleInit.Gated | code/ArxFramework/src/core/system_core.rs:126-133 | a module whose initialiser and report sit under the same feature gate |
| ModuleInit.InitModule | code/ArxFramework/core/core_system.rs:65-74 | success passes through; an error `e` becomes `InitializationError("<name> initialization failed: <e>")` |
| ModuleInit.WrapMemoryError | code/SolidArx-Framework/src/core/system_core.rs:116-119 | a memory manager passes through; its error becomes an `InitializationError` carrying the error's text |
| ModuleInit.Advance | code/ArxFramework/core/core_system.rs:81-84 | one module adds at most one call and at most one report |
| ModuleInit.RunFromCalls | code/ArxFramework/src/core/system_core.rs:77-89 | a run calls exactly the compiled-in initialisers up to and including the first that fails; it fails exactly when one fails, with that module's `InitializationError` |
| ModuleInit.RunAllCalls | code/ArxFramework/src/core/system_core.rs:122-173 | the same for a whole run from the start |
| ModuleInit.RunFromReports | code/ArxFramework/core/core_system.rs:77-149 | when every report shares its initialiser's gate, the reported modules are the called ones before the first failure |
| ModuleInit.ReportedOnlyAfterSuccess | code/ArxFramework/core/core_system.rs:81-92 | with shared gates, every reported module was called and its initialiser succeeded; on success all called modules are reported, on failure all but the failing one |
| ModuleInit.CalledAllWhenEnabled | code/ArxFramework/src/core/core_system.rs:123-163 | with every gate on, the called list is the whole plan in order |
| ModuleInit.InitStep | code/SolidArx-Framework/src/core/system_core.rs:88-100 | one `init_module!` performs exactly one step of the reference run and leaves its outcome unchanged |
| ModuleInit.InCalled | code/ArxFramework/src/core/system_core.rs:126-133 | a name is called exactly when it belongs to a module whose gate is on |
| ModuleInit.RunAllSucceedsIff | code/ArxFramework/src/core/system_core.rs:122-173 | a run succeeds exactly when every initialiser whose gate is on succeeds |
| ModuleInit.RunFeatureGated | code/ArxFramework/src/core/system_core.rs:124-169 | the feature-gated initialiser calls of each application type equal the reference run of its plan |
| ArxSystemCore.New | code/ArxFramework/src/core/system_core.rs:101-110 | never fails; keeps the configuration and builds the memory manager for its application type and memory configuration |
| ArxSystemCore.Run | code/ArxFramework/src/core/system_core.rs:122-173 | the run of the feature-gated plan: Authentication, CRUD, API Layer, Frontend for WebApp, and so on; nothing for EmbeddedSystem |
| ArxSystemCore.RunSucceedsIff | code/ArxFramework/src/core/system_core.rs:122-173 | `run` succeeds exactly when the initialisers of the compiled-in modules succeed; disabled modules are skipped without error |
| ArxSystemCore.WebAppWithoutCrud | code/ArxFramework/src/core/system_core.rs:126-133 | a WebApp build without `crud` never calls the CRUD initialiser |
| ArxCoreSystem.New | code/ArxFramework/core/core_system.rs:54-62 | never fails; the memory manager gets the application type's strategy and the default memory configuration |
| ArxCoreSystem.RunAsWritten | code/ArxFramework/core/core_system.rs:77-149 | the run as written: Core System, Authentication, CRUD, API Layer, Monitoring, Frontend for WebApp and so on, with file management reported ungated for AutomationScript |
| ArxCoreSystem.Run | code/ArxFramework/core/core_system.rs:77-149 | the corrected run: the same order with every report under its initialiser's gate |
| ArxCoreSystem.ReportWithoutInit | code/ArxFramework/core/core_system.rs:125-136 | as written, an AutomationScript build without `file_management` succeeds and reports File Management operational although its initialiser was never called |
| ArxCoreSystem.RunReportsOnlyInitialised | code/ArxFramework/core/core_system.rs:81-92 | in the corrected run, for every build, only modules whose initialiser was called and succeeded are reported |
| ArxSrcCoreSystem.New | code/ArxFramework/src/core/core_system.rs:82-90 | never fails; keeps the configuration and builds the memory manager for its application type and memory configuration |
| ArxSrcCoreSystem.Run | code/ArxFramework/src/core/core_system.rs:123-163 | the run of the ungated sequence of each application type, stopping at the first failure |
| ArxSrcCoreSystem.AutomationFileManagement | code/ArxFramework/src/core/core_system.rs:148-154 | File Management is called exactly when its feature is on and Task Automation came up; the run succeeds exactly when Task Automation does and, with the feature on, File Management does too |
| SolidSystemCore.New | code/SolidArx-Framework/src/core/system_core.rs:113-136 | fails exactly when the memory manager does, with an `InitializationError`; otherwise keeps the configuration and the manager, with a connection manager exactly when a database is configured, carrying its configuration |
| SolidSystemCore.Bootstrap | code/SolidArx-Framework/src/core/system_core.rs:154-168 | the steps taken are a prefix of connect, scrape and generate the default models, scrape and generate the dev models; every step but the last succeeded; the bootstrap fails exactly when the last one failed, with its error |
| SolidSystemCore.BootstrapDatabase | code/SolidArx-Framework/src/core/system_core.rs:152-173 | without a connection manager nothing runs; otherwise the steps of `Bootstrap`, in order, up to the first failure |
| SolidSystemCore.FirstMissing | code/SolidArx-Framework/src/core/system_core.rs:188-195 | none exactly when every required feature is compiled in; otherwise the message of the first required feature, in check order, that is not, every earlier one being compiled in |
| SolidSystemCore.CheckRequired | code/SolidArx-Framework/src/core/system_core.rs:188-189 | one `cfg(not(feature))` check: it fails exactly with the first missing requirement's message, or passes without changing it |
| SolidSystemCore.CheckAllRequired | code/SolidArx-Framework/src/core/system_core.rs:188-249 | the checks of an application type reject the first missing feature with its `UnsupportedOperationError`, else succeed |
| SolidSystemCore.Run | code/SolidArx-Framework/src/core/system_core.rs:149-263 | without a database nothing is bootstrapped; a bootstrap failure ends the run before any initialiser; otherwise the feature-gated initialisers run, then the required-feature checks, and a missing application type gives a `ConfigurationError` |
| SolidSystemCore.RequiredAreGates | code/SolidArx-Framework/src/core/system_core.rs:176-249 | the required features of each application type are exactly the gates of its modules, in the same order |
| SolidSystemCore.RunSucceedsIff | code/SolidArx-Framework/src/core/system_core.rs:176-250 | after the bootstrap, `run` succeeds exactly when every required feature is compiled in and every initialiser of the application type succeeds |
| SolidSystemCore.WebAppNeedsCrud | code/SolidArx-Framework/tests/test_core_system.rs:86-109 | a WebApp build without `crud` fails, whatever the initialisers do |
| SolidSystemCore.BootstrapStopsEarly | code/SolidArx-Framework/src/core/system_core.rs:158 | a failed connect ends the bootstrap after one step, whatever the later steps would do |

## Left out

- The `Mutex` around the task table and its lock-error paths are concurrency plumbing. The table is a plain `map` field of `TaskStore`.
- `CrudOps.Created`: `1024 * memory_scale` is computed on unbounded integers. The source multiplies in `u8`, which cannot hold 1024, so its evident intent is assumed.
- ArxFramework's `Task` has no `ops` field. The CRUD model uses SolidArx-Framework's `Task`; ArxFramework's `Task::new` (store `InMemory`) is covered by the same `NewTask`.
- The `std::any::type_name` dispatch is modelled as a model-kind tag (`KindOf`). The string comparison as written is kept only for the finding below.
- The `MemoryManager::allocate` call inside `create` has no receiver in the source. The allocation is modelled as a fresh zeroed buffer of the computed size.
- `ArxCoreSystem.New`: `core/core_system.rs` calls `MemoryManager::new` with the application type alone. The manager is built with the default memory configuration.
- SolidArx-Framework's `memory_management.rs` is not part of this model. `SolidSystemCore.New` takes that manager's outcome as an input.
- `ConnectionManager::new` returns the manager directly, so the `map_err(..)?` around it in SolidArx-Framework's `CoreSystem::new` is dropped, as is the ill-formed `Some<connection_manager>` in its struct literal.
- The database bootstrap's errors are not converted into `CoreError` anywhere in the source. They are modelled as `GenericError` carrying the step's error text.
- `initialize_connection` is awaited although SolidArx-Framework declares it `async pub`, which does not compile. `SolidSystemCore` takes the connect outcome as an input.
- The bootstrap is not composed with `ConnectionManagement.InitializeConnection`, whose unset-timeout case panics.
- `generate_tables` is not shown in the source. Its outcome for each models directory is an input, and no table creation is modelled.
- `scrape` takes one argument but is called with two in `run`; the directory is the argument used.
- Logging, `println!` and `eprintln!` are left out. `monitor_module_status` is recorded only as the `reported` list of a `Trace`, and the printed messages of `scrape` are its returned messages.
- Sleeping is left out: the requested delays are returned as a list of seconds.
- Driver calls (diesel, mongodb) are oracle functions of the back end, URL and attempt number.
- In both `connect` drafts every `match` arm is gated by a profile feature, so a build without every profile has a non-exhaustive match, and in `connection_management.rs` an `info!` call follows the PostgreSQL arm's tail expression. The synchronous `initialize_connection` of `connection_manager.rs` calls the `async fn connect` without `.await`. The model takes every back end's driver as present and uses the synchronous result of `connect`.
- File system access and `syn` parsing are inputs: a directory listing, file contents and a parsed item tree or parse error.
- Durations are whole seconds.
- `PowConnectionManager`: `std::time::Duration` has no `pow` method, so `retry_timeout.pow(attempts)` in `connection_manager.rs` does not compile. Its evident intent is modelled as `Pow`: the timeout in whole seconds raised to the attempt count, on unbounded integers.
- `ConnectionManagement.InitializeConnection`: the `u64` product `retry_timeout * attempts` is unbounded here.
- Task ids and item ids are `nat` where the source has `u32`, and `SolidCoreConfig.maxThreads` is a `nat` where `global_config.rs` has `u8`. No modelled behaviour depends on their width.
- `ArxNetworkConfig.DraftsAgreeOnDefaults` and `MemoryConfiguration.NewRebuilds` hold by unfolding the definitions alone. They record that the two drafts' numbers agree and that `new` loses nothing.
- `CrudOps.Delete` and `CrudOps.Revoke` are functions of the id alone: that they leave the table untouched is stated by their signature, not by an `ensures` about the table.
- The declaration of `TASKS_IN_MEMORY` (in SolidArx-Framework's `memory_management.rs`) is not part of this model; the table is assumed to start empty.
- The CLI, `main.rs`, `build.rs`, `lib.rs`, the modules' `initialize()` functions, the model definition files, the `global_config.rs` files and ArxFramework's `crud/crud_ops.rs` outside `src/` are not part of this model. ArxFramework's `src/crud/crud_ops.rs` shares the macro modelled by `CrudOps`.

## Findings

| source | as written | input that shows it | evidently intended | confidence | as-written member | corrected member |
|---|---|---|---|---|---|---|
| code/SolidArx-Framework/src/crud/crud_ops.rs:149-151 | `create` and `read` take the Task branch only when `std::any::type_name` equals `modules::default::task_model::Task`, but `Task` is declared in `crud::models::default::task::model`, so its name is at least 42 characters against the literal's 34 | any `Task`: `create` stores nothing, and `read(id)` fails with "Elemento con ID {id} non trovato" even right after `create` | a task is stored by `create` and found by `read` | not executed | CrudOps.TaskNeverReadAsWritten | CrudOps.CreateThenRead |
| code/ArxFramework/src/crud/crud_ops.rs:114-116 | ArxFramework's `create` and its `read` (line 182) take the Task branch only when `std::any::type_name` equals `modules::default::task_model::Task`, but `Task` is declared in `crud::models::default::task::model`, so its name is at least 42 characters against the literal's 34 | any `Task`: `create` stores nothing, and `read(id)` fails with "Elemento con ID {id} non trovato" even right after `create` | a task is stored by `create` and found by `read` | not executed | CrudOps.TaskNeverReadAsWritten | CrudOps.CreateThenRead |
| code/ArxFramework/core/core_system.rs:133-135 | for AutomationScript, `#[cfg(feature = "file_management")]` covers only the initialiser call, and `monitor_module_status("File Management", true)` runs unconditionally | an AutomationScript build without `file_management` whose Core System, Monitoring and Task Automation initialisers succeed: File Management is reported operational but never initialised | the report sits under the same gate as its initialiser, as for every other module | not executed | ArxCoreSystem.ReportWithoutInit | ArxCoreSystem.RunReportsOnlyInitialised |
