/** The module-initialisation sequence every draft of `CoreSystem::run` performs: for
    the configured application type, call each module's `initialize()` in a fixed
    order, report each module that came up, and stop at the first failure with an
    `InitializationError`. A module's initialiser and its report may each sit under a
    `#[cfg(feature = ..)]` gate. */
module ModuleInit {
  import opened Common

  /** Whether a statement under the gate `gate` is compiled in; `None` is no gate. */
  predicate Enabled(gate: Option<string>, features: set<string>) {
    gate.None? || gate.value in features
  }

  /** One module of a `run` sequence: its name, the gate on its initialiser call and the
      gate on its status report. */
  datatype Module = Module(name: string, initGate: Option<string>, reportGate: Option<string>)

  /** A module whose initialiser and report share one gate (or none), as the
      `init_module!` macro and the plain call-then-report pairs have it. */
  function Gated(name: string, feature: Option<string>): (m: Module)
    ensures m.name == name && m.initGate == feature && m.reportGate == feature
  {
    Module(name, feature, feature)
  }

  /** The outcome of each module's `initialize()`, by module name; an error is its
      `Display` text. */
  type Initialisers = string -> Result<(), string>

  /** The error a failing module's initialiser is turned into. */
  function InitFailed(name: string, e: string): CoreError {
    InitializationError(name + " initialization failed: " + e)
  }

  /** `init_module!` and `initialize_module`: success passes through, a failure becomes
      `InitializationError("<name> initialization failed: <e>")`. */
  function InitModule(name: string, outcome: Result<(), string>): (r: Result<(), CoreError>)
    ensures r.Ok? <==> outcome.Ok?
    ensures r.Err? ==> r.error.InitializationError? && r.error == InitFailed(name, outcome.error)
  {
    match outcome
    case Ok(_) => Ok(())
    case Err(e) => Err(InitFailed(name, e))
  }

  /** `MemoryManager::new(..).map_err(|e| CoreError::InitializationError(e.to_string()))`
      in `CoreSystem::new`. */
  function WrapMemoryError<T>(r: Result<T, CoreError>): (m: Result<T, CoreError>)
    ensures r.Ok? <==> m.Ok?
    ensures r.Ok? ==> m.value == r.value
    ensures r.Err? ==> m.error == InitializationError(Display(r.error))
  {
    match r
    case Ok(v) => Ok(v)
    case Err(e) => Err(InitializationError(Display(e)))
  }

  /** A `run` in progress: its result so far, the modules whose initialiser was called,
      and the modules reported operational, in order. */
  datatype Trace = Trace(result: Result<(), CoreError>, called: seq<string>, reported: seq<string>)

  /** Nothing run yet. */
  const Start: Trace := Trace(Ok(()), [], [])

  /** The statements of one module, on a run that has not failed: the initialiser (if
      compiled in) and, unless it failed, the report (if compiled in). */
  function Advance(t: Trace, m: Module, features: set<string>, init: Initialisers): (t2: Trace)
    requires t.result.Ok?
    ensures |t.called| <= |t2.called| <= |t.called| + 1
    ensures |t.reported| <= |t2.reported| <= |t.reported| + 1
  {
    var afterInit :=
      if Enabled(m.initGate, features) then Trace(InitModule(m.name, init(m.name)), t.called + [m.name], t.reported)
      else t;
    if afterInit.result.Ok? && Enabled(m.reportGate, features) then
      afterInit.(reported := afterInit.reported + [m.name])
    else afterInit
  }

  /** The rest of a run from state `t`: modules in order, until one fails. */
  function RunFrom(t: Trace, plan: seq<Module>, features: set<string>, init: Initialisers): Trace
    decreases |plan|
  {
    if plan == [] || t.result.Err? then t
    else RunFrom(Advance(t, plan[0], features, init), plan[1..], features, init)
  }

  /** A whole run of `plan`. */
  function RunAll(plan: seq<Module>, features: set<string>, init: Initialisers): Trace {
    RunFrom(Start, plan, features, init)
  }

  /** The modules of `plan` whose initialiser is compiled in, in order. */
  function Called(plan: seq<Module>, features: set<string>): (names: seq<string>)
    ensures |names| <= |plan|
  {
    if plan == [] then []
    else (if Enabled(plan[0].initGate, features) then [plan[0].name] else []) + Called(plan[1..], features)
  }

  /** The index of the first name whose initialiser fails, or `|names|` if none does. */
  function FirstFailure(names: seq<string>, init: Initialisers): (k: nat)
    ensures k <= |names|
    ensures forall j :: 0 <= j < k ==> init(names[j]).Ok?
    ensures k < |names| ==> init(names[k]).Err?
  {
    if names == [] then 0
    else if init(names[0]).Err? then 0
    else 1 + FirstFailure(names[1..], init)
  }

  /** How many initialisers a run calls: up to and including the first failure. */
  function CallCount(k: nat, n: nat): nat {
    if k < n then k + 1 else n
  }

  /** The run advanced by one module, and a failed run left as it is. */
  lemma RunFromStep(t: Trace, plan: seq<Module>, features: set<string>, init: Initialisers)
    requires plan != []
    ensures t.result.Ok? ==> RunFrom(t, plan, features, init) == RunFrom(Advance(t, plan[0], features, init), plan[1..], features, init)
    ensures t.result.Err? ==> RunFrom(t, plan, features, init) == t
  {
  }

  lemma TakeCons(x: string, s: seq<string>, j: nat)
    requires j <= |s|
    ensures ([x] + s)[..j + 1] == [x] + s[..j]
  {
  }

  /** A prefix of `[x] + tail` appended to `before`, from `x` appended first. */
  lemma PrefixStep(before: seq<string>, x: string, tail: seq<string>, j: nat, after: seq<string>)
    requires j <= |tail|
    requires after == (before + [x]) + tail[..j]
    ensures after == before + ([x] + tail)[..j + 1]
  {
    TakeCons(x, tail, j);
  }

  /** A run from a state that has not failed: it calls exactly the compiled-in
      initialisers up to and including the first one that fails; it fails exactly when
      one fails, with that module's `InitializationError`. */
  lemma {:induction false} RunFromCalls(t: Trace, plan: seq<Module>, features: set<string>, init: Initialisers)
    requires t.result.Ok?
    ensures var names := Called(plan, features);
      var k := FirstFailure(names, init);
      var r := RunFrom(t, plan, features, init);
      && r.called == t.called + names[..CallCount(k, |names|)]
      && (r.result.Ok? <==> k == |names|)
      && (k < |names| ==> r.result == Err(InitFailed(names[k], init(names[k]).error)))
    decreases |plan|
  {
    if plan != [] {
      var m := plan[0];
      var rest := plan[1..];
      var names := Called(plan, features);
      var tail := Called(rest, features);
      var t2 := Advance(t, m, features, init);
      RunFromStep(t, plan, features, init);
      AdvanceCalls(t, m, features, init);
      if Enabled(m.initGate, features) {
        assert names == [m.name] + tail;
        FirstFailureCons(m.name, tail, init);
        if init(m.name).Err? {
          assert names[..1] == [m.name];
        } else {
          RunFromCalls(t2, rest, features, init);
          var k := FirstFailure(tail, init);
          CalledStep(t.called, m.name, tail, k, RunFrom(t2, rest, features, init).called);
        }
      } else {
        assert names == tail;
        RunFromCalls(t2, rest, features, init);
      }
    }
  }

  /** The calls of a run, one compiled-in initialiser that succeeded further on. */
  lemma CalledStep(before: seq<string>, x: string, tail: seq<string>, k: nat, after: seq<string>)
    requires k <= |tail|
    requires after == (before + [x]) + tail[..CallCount(k, |tail|)]
    ensures after == before + ([x] + tail)[..CallCount(k + 1, |[x] + tail|)]
    ensures k < |tail| ==> ([x] + tail)[k + 1] == tail[k]
  {
    TakeCons(x, tail, CallCount(k, |tail|));
  }

  /** One module's effect on the calls and the result of a run that has not failed. */
  lemma AdvanceCalls(t: Trace, m: Module, features: set<string>, init: Initialisers)
    requires t.result.Ok?
    ensures var t2 := Advance(t, m, features, init);
      && (Enabled(m.initGate, features) ==>
            t2.called == t.called + [m.name] && (t2.result.Ok? <==> init(m.name).Ok?)
            && (init(m.name).Err? ==> t2.result == Err(InitFailed(m.name, init(m.name).error))))
      && (!Enabled(m.initGate, features) ==> t2.called == t.called && t2.result.Ok?)
  {
  }

  /** `FirstFailure` of a non-empty sequence, one name at a time. */
  lemma FirstFailureCons(x: string, tail: seq<string>, init: Initialisers)
    ensures FirstFailure([x] + tail, init) == if init(x).Err? then 0 else 1 + FirstFailure(tail, init)
  {
    assert ([x] + tail)[1..] == tail;
  }

  /** `RunFromCalls` for a whole run. */
  lemma RunAllCalls(plan: seq<Module>, features: set<string>, init: Initialisers)
    ensures var names := Called(plan, features);
      var k := FirstFailure(names, init);
      var r := RunAll(plan, features, init);
      && r.called == names[..CallCount(k, |names|)]
      && (r.result.Ok? <==> k == |names|)
      && (k < |names| ==> r.result == Err(InitFailed(names[k], init(names[k]).error)))
  {
    RunFromCalls(Start, plan, features, init);
  }

  /** Every module's report sits under the same gate as its initialiser. */
  predicate ReportsFollowInits(plan: seq<Module>) {
    forall i :: 0 <= i < |plan| ==> plan[i].reportGate == plan[i].initGate
  }

  /** When every report shares its initialiser's gate, the modules reported operational
      are exactly those whose initialiser was called and succeeded: all called ones when
      the run succeeds, all but the failing last one otherwise. */
  lemma {:induction false} RunFromReports(t: Trace, plan: seq<Module>, features: set<string>, init: Initialisers)
    requires t.result.Ok?
    requires ReportsFollowInits(plan)
    ensures var names := Called(plan, features);
      var k := FirstFailure(names, init);
      RunFrom(t, plan, features, init).reported == t.reported + names[..k]
    decreases |plan|
  {
    if plan != [] {
      var m := plan[0];
      var rest := plan[1..];
      var names := Called(plan, features);
      var tail := Called(rest, features);
      var t2 := Advance(t, m, features, init);
      assert m.reportGate == m.initGate;
      assert ReportsFollowInits(rest) by {
        forall i | 0 <= i < |rest|
          ensures rest[i].reportGate == rest[i].initGate
        {
          assert rest[i] == plan[i + 1];
        }
      }
      if Enabled(m.initGate, features) {
        assert names == [m.name] + tail;
        if init(m.name).Ok? {
          assert t2.result.Ok? && t2.reported == t.reported + [m.name];
          RunFromReports(t2, rest, features, init);
          var k := FirstFailure(tail, init);
          FirstFailureCons(m.name, tail, init);
          RunFromStep(t, plan, features, init);
          PrefixStep(t.reported, m.name, tail, k, RunFrom(t2, rest, features, init).reported);
        } else {
          assert t2.result.Err? && t2.reported == t.reported;
          assert FirstFailure(names, init) == 0;
        }
      } else {
        assert names == tail;
        assert t2 == t;
        RunFromReports(t2, rest, features, init);
      }
    }
  }

  /** A module is reported operational only after its initialiser succeeded. */
  lemma ReportedOnlyAfterSuccess(plan: seq<Module>, features: set<string>, init: Initialisers)
    requires ReportsFollowInits(plan)
    ensures var r := RunAll(plan, features, init);
      && r.reported <= r.called
      && (r.result.Ok? ==> r.reported == r.called)
      && (r.result.Err? ==> |r.reported| + 1 == |r.called|)
      && (forall n :: n in r.reported ==> init(n).Ok?)
  {
    RunAllCalls(plan, features, init);
    RunFromReports(Start, plan, features, init);
    var names := Called(plan, features);
    var k := FirstFailure(names, init);
    var r := RunAll(plan, features, init);
    assert r.reported == names[..k];
    forall n | n in r.reported
      ensures init(n).Ok?
    {
      var j :| 0 <= j < k && names[j] == n;
    }
  }

  /** With every gate's feature enabled and every initialiser succeeding, a run calls and
      reports every module of the plan, in order, and succeeds. */
  lemma {:induction false} CalledAllWhenEnabled(plan: seq<Module>, features: set<string>)
    requires forall i :: 0 <= i < |plan| ==> Enabled(plan[i].initGate, features)
    ensures |Called(plan, features)| == |plan|
    ensures forall i :: 0 <= i < |plan| ==> Called(plan, features)[i] == plan[i].name
    decreases |plan|
  {
    if plan != [] {
      var rest := plan[1..];
      forall i | 0 <= i < |rest|
        ensures Enabled(rest[i].initGate, features)
      {
        assert rest[i] == plan[i + 1];
      }
      CalledAllWhenEnabled(rest, features);
    }
  }

  /** One step of a `run` body: the statements of module `m`, which is the next module
      of the plan (`todo[0]`). The rest of the run is unchanged by taking it. */
  method InitStep(t: Trace, ghost todo: seq<Module>, m: Module, features: set<string>, init: Initialisers)
    returns (t2: Trace, ghost todo2: seq<Module>)
    requires t.result.Ok?
    requires todo != [] && todo[0] == m
    ensures t2 == Advance(t, m, features, init)
    ensures todo2 == todo[1..]
    ensures RunFrom(t2, todo2, features, init) == RunFrom(t, todo, features, init)
  {
    RunFromStep(t, todo, features, init);
    todo2 := todo[1..];
    t2 := t;
    if Enabled(m.initGate, features) {
      var r := InitModule(m.name, init(m.name));
      t2 := Trace(r, t2.called + [m.name], t2.reported);
      if r.Err? {
        return;
      }
    }
    if Enabled(m.reportGate, features) {
      t2 := t2.(reported := t2.reported + [m.name]);
    }
  }

  /** The names `Called` lists are exactly those of the modules whose initialiser gate is
      on. */
  lemma {:induction false} InCalled(plan: seq<Module>, features: set<string>, n: string)
    ensures n in Called(plan, features) <==>
      exists i :: 0 <= i < |plan| && plan[i].name == n && Enabled(plan[i].initGate, features)
    decreases |plan|
  {
    if plan != [] {
      var rest := plan[1..];
      InCalled(rest, features, n);
      var head := if Enabled(plan[0].initGate, features) then [plan[0].name] else [];
      assert Called(plan, features) == head + Called(rest, features);
      if exists i :: 0 <= i < |rest| && rest[i].name == n && Enabled(rest[i].initGate, features) {
        var i :| 0 <= i < |rest| && rest[i].name == n && Enabled(rest[i].initGate, features);
        assert plan[i + 1] == rest[i];
      }
      if exists i :: 0 <= i < |plan| && plan[i].name == n && Enabled(plan[i].initGate, features) {
        var i :| 0 <= i < |plan| && plan[i].name == n && Enabled(plan[i].initGate, features);
        if i > 0 {
          assert rest[i - 1] == plan[i];
        }
      }
    }
  }

  /** A run succeeds exactly when every initialiser whose gate is on succeeds. */
  lemma RunAllSucceedsIff(plan: seq<Module>, features: set<string>, init: Initialisers)
    ensures RunAll(plan, features, init).result.Ok? <==>
      forall i :: 0 <= i < |plan| && Enabled(plan[i].initGate, features) ==> init(plan[i].name).Ok?
  {
    RunAllCalls(plan, features, init);
    var names := Called(plan, features);
    var k := FirstFailure(names, init);
    if k < |names| {
      InCalled(plan, features, names[k]);
    } else {
      forall i | 0 <= i < |plan| && Enabled(plan[i].initGate, features)
        ensures init(plan[i].name).Ok?
      {
        InCalled(plan, features, plan[i].name);
      }
    }
  }

  /** The module sequence of the drafts that gate every `init_module!` on its feature:
      WebApp: authentication, CRUD, API layer, frontend; ApiBackend: the first three;
      DesktopApp: authentication, CRUD, file management, frontend; AutomationScript: task
      automation, file management; EmbeddedSystem: none. */
  function FeatureGatedPlan(app: AppType): seq<Module> {
    match app
    case WebApp =>
      [Gated("Authentication", Some("auth")), Gated("CRUD", Some("crud")),
       Gated("API Layer", Some("api")), Gated("Frontend", Some("frontend"))]
    case ApiBackend =>
      [Gated("Authentication", Some("auth")), Gated("CRUD", Some("crud")), Gated("API Layer", Some("api"))]
    case DesktopApp =>
      [Gated("Authentication", Some("auth")), Gated("CRUD", Some("crud")),
       Gated("File Management", Some("file_management")), Gated("Frontend", Some("frontend"))]
    case AutomationScript =>
      [Gated("Task Automation", Some("task_automation")), Gated("File Management", Some("file_management"))]
    case EmbeddedSystem => []
  }

  /** The `#[cfg(feature = ..)] init_module!(..)?` lines of `run` for application type
      `app`, shared by the drafts whose modules are feature-gated. */
  method RunFeatureGated(app: AppType, features: set<string>, init: Initialisers) returns (t: Trace)
    ensures t == RunAll(FeatureGatedPlan(app), features, init)
  {
    t := Start;
    ghost var todo := FeatureGatedPlan(app);
    match app
    case WebApp =>
      t, todo := InitStep(t, todo, Gated("Authentication", Some("auth")), features, init);
      if t.result.Err? { return; }
      t, todo := InitStep(t, todo, Gated("CRUD", Some("crud")), features, init);
      if t.result.Err? { return; }
      t, todo := InitStep(t, todo, Gated("API Layer", Some("api")), features, init);
      if t.result.Err? { return; }
      t, todo := InitStep(t, todo, Gated("Frontend", Some("frontend")), features, init);
      if t.result.Err? { return; }
    case ApiBackend =>
      t, todo := InitStep(t, todo, Gated("Authentication", Some("auth")), features, init);
      if t.result.Err? { return; }
      t, todo := InitStep(t, todo, Gated("CRUD", Some("crud")), features, init);
      if t.result.Err? { return; }
      t, todo := InitStep(t, todo, Gated("API Layer", Some("api")), features, init);
      if t.result.Err? { return; }
    case DesktopApp =>
      t, todo := InitStep(t, todo, Gated("Authentication", Some("auth")), features, init);
      if t.result.Err? { return; }
      t, todo := InitStep(t, todo, Gated("CRUD", Some("crud")), features, init);
      if t.result.Err? { return; }
      t, todo := InitStep(t, todo, Gated("File Management", Some("file_management")), features, init);
      if t.result.Err? { return; }
      t, todo := InitStep(t, todo, Gated("Frontend", Some("frontend")), features, init);
      if t.result.Err? { return; }
    case AutomationScript =>
      t, todo := InitStep(t, todo, Gated("Task Automation", Some("task_automation")), features, init);
      if t.result.Err? { return; }
      t, todo := InitStep(t, todo, Gated("File Management", Some("file_management")), features, init);
      if t.result.Err? { return; }
    case EmbeddedSystem =>
  }
}
