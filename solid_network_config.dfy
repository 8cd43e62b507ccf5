/** `config/network_config.rs` of SolidArx-Framework: `DatabaseType::new` rejects a missing
    database URL and fills every option left unset from the defaults of the first enabled
    application profile. */
module SolidNetworkConfig {
  import opened Common
  import opened Profiles

  datatype ConnectionConfig = ConnectionConfig(
    databaseUrl: Option<string>,
    maxConnections: Option<nat>,
    retryAttempts: Option<nat>,
    maxIdleTime: Option<nat>,
    connectionTimeout: Option<nat>)

  datatype DatabaseType =
    | PostgreSQL(config: ConnectionConfig)
    | SQLite(config: ConnectionConfig)
    | MongoDB(config: ConnectionConfig)
    | NoDatabase

  /** The error returned when no URL is given (the string continuation joins the two
      source lines without a space). */
  const UrlMissing: string :=
    "Database URL non impostato per l' applicazione. Utilizzare il comando CLI per impostare l'URL del database."
    + "Digitare 'Arx Help' per ulteriori informazioni"

  /** One profile's defaults: max connections, retry attempts, max idle time (s),
      connection timeout (s). */
  datatype Defaults = Defaults(maxConnections: nat, retryAttempts: nat, maxIdleTime: nat, connectionTimeout: nat)

  /** The per-profile default table. */
  function DefaultsFor(profile: string): Defaults
    requires profile in ProfileOrder
  {
    match profile
    case "webapp" => Defaults(100, 3, 300, 5)
    case "api_backend" => Defaults(50, 3, 600, 10)
    case "desktop" => Defaults(5, 1, 1200, 15)
    case "automation" => Defaults(20, 5, 3600, 30)
    case "embedded" => Defaults(1, 1, 600, 5)
  }

  /** The defaults that apply to a build, if any profile is enabled. */
  function BuildDefaults(enabled: set<string>): Option<Defaults> {
    match FirstEnabled(enabled)
    case None => None
    case Some(p) => Some(DefaultsFor(p))
  }

  /** A given option wins over the profile default. */
  function Fill(given: Option<nat>, default: Option<nat>): Option<nat> {
    if given.Some? then given else default
  }

  /** `DatabaseType::new(du, mc, ra, mit, ct)`, built with the cargo features `enabled`. */
  method New(du: Option<string>, mc: Option<nat>, ra: Option<nat>, mit: Option<nat>, ct: Option<nat>, enabled: set<string>)
    returns (r: Result<DatabaseType, string>)
    ensures r.Err? <==> du.None?
    ensures r.Err? ==> r.error == UrlMissing
    ensures r.Ok? ==> r.value.PostgreSQL?
    ensures r.Ok? ==> r.value.config.databaseUrl == du
    ensures r.Ok? ==> var d := BuildDefaults(enabled);
      && r.value.config.maxConnections == Fill(mc, if d.Some? then Some(d.value.maxConnections) else None)
      && r.value.config.retryAttempts == Fill(ra, if d.Some? then Some(d.value.retryAttempts) else None)
      && r.value.config.maxIdleTime == Fill(mit, if d.Some? then Some(d.value.maxIdleTime) else None)
      && r.value.config.connectionTimeout == Fill(ct, if d.Some? then Some(d.value.connectionTimeout) else None)
    ensures r.Ok? && FirstEnabled(enabled).Some? ==>
      && r.value.config.databaseUrl.Some?
      && r.value.config.maxConnections.Some?
      && r.value.config.retryAttempts.Some?
      && r.value.config.maxIdleTime.Some?
      && r.value.config.connectionTimeout.Some?
    ensures r.Ok? && FirstEnabled(enabled).None? ==>
      r.value.config == ConnectionConfig(du, mc, ra, mit, ct)
  {
    if du == None {
      return Err(UrlMissing);
    }
    FirstEnabledCases(enabled);
    ghost var d := BuildDefaults(enabled);
    ghost var given := ConnectionConfig(du, mc, ra, mit, ct);
    var mc, ra, mit, ct := mc, ra, mit, ct;

    if mc == None {
      if "webapp" in enabled {
        mc := Some(100);
      } else if "api_backend" in enabled {
        mc := Some(50);
      } else if "desktop" in enabled {
        mc := Some(5);
      } else if "automation" in enabled {
        mc := Some(20);
      } else if "embedded" in enabled {
        mc := Some(1);
      }
    }
    assert mc == Fill(given.maxConnections, if d.Some? then Some(d.value.maxConnections) else None);

    if ra == None {
      if "webapp" in enabled {
        ra := Some(3);
      } else if "api_backend" in enabled {
        ra := Some(3);
      } else if "desktop" in enabled {
        ra := Some(1);
      } else if "automation" in enabled {
        ra := Some(5);
      } else if "embedded" in enabled {
        ra := Some(1);
      }
    }
    assert ra == Fill(given.retryAttempts, if d.Some? then Some(d.value.retryAttempts) else None);

    if mit == None {
      if "webapp" in enabled {
        mit := Some(300);
      } else if "api_backend" in enabled {
        mit := Some(600);
      } else if "desktop" in enabled {
        mit := Some(1200);
      } else if "automation" in enabled {
        mit := Some(3600);
      } else if "embedded" in enabled {
        mit := Some(600);
      }
    }
    assert mit == Fill(given.maxIdleTime, if d.Some? then Some(d.value.maxIdleTime) else None);

    if ct == None {
      if "webapp" in enabled {
        ct := Some(5);
      } else if "api_backend" in enabled {
        ct := Some(10);
      } else if "desktop" in enabled {
        ct := Some(15);
      } else if "automation" in enabled {
        ct := Some(30);
      } else if "embedded" in enabled {
        ct := Some(5);
      }
    }
    assert ct == Fill(given.connectionTimeout, if d.Some? then Some(d.value.connectionTimeout) else None);

    return Ok(PostgreSQL(ConnectionConfig(du, mc, ra, mit, ct)));
  }
}
