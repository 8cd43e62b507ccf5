/** `src/config/network_config.rs` of ArxFramework: `DatabaseType::new` returns a fixed
    configuration for the first enabled application profile. */
module ArxNetworkConfig {
  import opened Common
  import opened Profiles
  import SolidNetworkConfig

  /** Durations are in whole seconds. */
  datatype ConnectionConfig = ConnectionConfig(
    databaseUrl: string,
    maxConnections: Option<nat>,
    retryAttempts: Option<nat>,
    maxIdleTime: Option<nat>,
    connectionTimeout: Option<nat>)

  datatype DatabaseType =
    | PostgreSQL(config: ConnectionConfig)
    | SQLite(config: ConnectionConfig)
    | MongoDB(config: ConnectionConfig)

  const NotConfigured: string := "Database configuration not set for the application"

  /** The configuration each profile stands for. */
  function ProfileConfig(profile: string): DatabaseType
    requires profile in ProfileOrder
  {
    match profile
    case "webapp" =>
      PostgreSQL(ConnectionConfig("postgres://localhost/webapp_db", Some(100), Some(3), Some(300), Some(5)))
    case "api_backend" =>
      PostgreSQL(ConnectionConfig("postgres://localhost/api_backend_db", Some(50), Some(3), Some(600), Some(10)))
    case "desktop" =>
      SQLite(ConnectionConfig("sqlite://desktop_app.db", Some(5), Some(1), Some(1200), Some(15)))
    case "automation" =>
      MongoDB(ConnectionConfig("mongodb://localhost:27017/automation_db", Some(20), Some(5), Some(3600), Some(30)))
    case "embedded" =>
      SQLite(ConnectionConfig("sqlite://embedded_app.db", Some(1), Some(1), Some(600), Some(5)))
  }

  /** `DatabaseType::new()`, built with the cargo features `enabled`: each `#[cfg]` block
      returns, so the first enabled profile decides. */
  function New(enabled: set<string>): (r: Result<DatabaseType, string>)
    ensures r.Err? <==> FirstEnabled(enabled).None?
    ensures r.Err? ==> r.error == NotConfigured
    ensures r.Ok? ==> r.value == ProfileConfig(FirstEnabled(enabled).value)
    ensures r.Ok? ==>
      && r.value.config.maxConnections.Some?
      && r.value.config.retryAttempts.Some?
      && r.value.config.maxIdleTime.Some?
      && r.value.config.connectionTimeout.Some?
  {
    FirstEnabledCases(enabled);
    if "webapp" in enabled then Ok(ProfileConfig("webapp"))
    else if "api_backend" in enabled then Ok(ProfileConfig("api_backend"))
    else if "desktop" in enabled then Ok(ProfileConfig("desktop"))
    else if "automation" in enabled then Ok(ProfileConfig("automation"))
    else if "embedded" in enabled then Ok(ProfileConfig("embedded"))
    else
      Err(NotConfigured)
  }

  /** Back end per profile: PostgreSQL for the web and API profiles, SQLite for desktop and
      embedded, MongoDB for automation. */
  lemma BackendPerProfile(enabled: set<string>)
    requires New(enabled).Ok?
    ensures FirstEnabled(enabled) in {Some("webapp"), Some("api_backend")} <==> New(enabled).value.PostgreSQL?
    ensures FirstEnabled(enabled) in {Some("desktop"), Some("embedded")} <==> New(enabled).value.SQLite?
    ensures FirstEnabled(enabled) == Some("automation") <==> New(enabled).value.MongoDB?
  {
    FirstEnabledCases(enabled);
  }

  /** The numbers of both drafts agree: the fixed configuration of each profile carries
      exactly the defaults the other draft fills in for it. */
  lemma DraftsAgreeOnDefaults(profile: string)
    requires profile in ProfileOrder
    ensures var d := SolidNetworkConfig.DefaultsFor(profile);
      var c := ProfileConfig(profile).config;
      && c.maxConnections == Some(d.maxConnections)
      && c.retryAttempts == Some(d.retryAttempts)
      && c.maxIdleTime == Some(d.maxIdleTime)
      && c.connectionTimeout == Some(d.connectionTimeout)
  {
  }
}
