/** `network/connection_management.rs` of SolidArx-Framework: a connection manager that
    retries a failed connect with a linear back-off (`retry_timeout * attempts`). */
module ConnectionManagement {
  import opened Common
  import opened Drivers

  /** The configuration fields this draft reads. Their declaring file (`database_config.rs`)
      is not part of this model; `retryTimeout` is in whole seconds. */
  datatype ConnectionConfig = ConnectionConfig(
    databaseType: Backend,
    databaseUrl: string,
    maxRetries: nat,
    retryTimeout: Option<nat>)

  /** The argument of `ConnectionManager::new`: a back end variant carrying its config. */
  datatype DatabaseType =
    | PostgresDb(config: ConnectionConfig)
    | SQLiteDb(config: ConnectionConfig)
    | MongoDb(config: ConnectionConfig)

  /** `ConnectionErrors` */
  datatype ConnectionError =
    | PostgresError(msg: string)
    | SQLiteError(msg: string)
    | MongoError(msg: string)
    | UnknownError(msg: string)

  /** The `Display` text of a connection error. */
  function ErrorText(e: ConnectionError): string {
    match e
    case PostgresError(m) => "Errore PostgreSQL: " + m
    case SQLiteError(m) => "Errore SQLite: " + m
    case MongoError(m) => "Errore MongoDB: " + m
    case UnknownError(m) => "Errore sconosciuto: " + m
  }

  /** The back end an error comes from; `UnknownError` names none. */
  function ErrorBackend(e: ConnectionError): Option<Backend> {
    match e
    case PostgresError(_) => Some(Postgres)
    case SQLiteError(_) => Some(SQLite)
    case MongoError(_) => Some(MongoDB)
    case UnknownError(_) => None
  }

  datatype ConnectionManager = ConnectionManager(config: ConnectionConfig)

  /** `ConnectionManager::new`: every variant hands over the config it carries. */
  function New(db: DatabaseType): (cm: ConnectionManager)
    ensures db.PostgresDb? ==> cm == ConnectionManager(db.config)
    ensures db.SQLiteDb? ==> cm == ConnectionManager(db.config)
    ensures db.MongoDb? ==> cm == ConnectionManager(db.config)
  {
    match db
    case PostgresDb(c) => ConnectionManager(c)
    case SQLiteDb(c) => ConnectionManager(c)
    case MongoDb(c) => ConnectionManager(c)
  }

  /** `connect` on attempt `n`: one driver, chosen by the configured back end. A success is
      a connection of that back end, a failure an error tagged with it; `UnknownError` is
      never produced. */
  function Connect(cm: ConnectionManager, drivers: Drivers, n: nat): (r: Result<DbConnection, ConnectionError>)
    ensures r.Ok? ==> BackendOf(r.value) == cm.config.databaseType
    ensures r.Err? ==> ErrorBackend(r.error) == Some(cm.config.databaseType)
  {
    var url := cm.config.databaseUrl;
    match cm.config.databaseType
    case Postgres =>
      (match drivers.pgEstablish(url, n)
       case Ok(h) => Ok(PgConnection(h))
       case Err(e) => Err(PostgresError(e)))
    case SQLite =>
      (match drivers.sqliteEstablish(url, n)
       case Ok(h) => Ok(SqliteConnection(h))
       case Err(e) => Err(SQLiteError(e)))
    case MongoDB =>
      (match drivers.mongoParseOptions(url, n)
       case Err(e) => Err(MongoError(e))
       case Ok(options) =>
         match drivers.mongoWithOptions(options, n)
         case Err(e) => Err(MongoError(e))
         case Ok(h) => Ok(MongoClient(h)))
  }

  /** Only the selected back end's driver matters: drivers that agree on it give the same
      outcome, whatever the other back ends do. */
  lemma ConnectUsesOneBackend(cm: ConnectionManager, d1: Drivers, d2: Drivers, n: nat)
    requires SameBackendBehaviour(d1, d2, cm.config.databaseType, cm.config.databaseUrl, n)
    ensures Connect(cm, d1, n) == Connect(cm, d2, n)
  {
    if cm.config.databaseType.MongoDB? {
      var url := cm.config.databaseUrl;
      if d1.mongoParseOptions(url, n).Ok? {
        assert d1.mongoWithOptions(d1.mongoParseOptions(url, n).value, n)
            == d2.mongoWithOptions(d1.mongoParseOptions(url, n).value, n);
      }
    }
  }

  /** How `initialize_connection` ends: with a connection, by giving up with the last
      error, or by panicking on `retry_timeout.unwrap()` when no timeout is configured. */
  datatype Outcome = Connected(conn: DbConnection) | GaveUp(error: ConnectionError) | TimeoutUnset(error: ConnectionError)

  /** The number of connects made when every one fails: the counter is compared with
      `max_retries` only after the first failure. */
  function MaxAttempts(config: ConnectionConfig): nat {
    if config.maxRetries == 0 then 1 else config.maxRetries
  }

  /** `initialize_connection`. `waits` lists the requested sleeps in seconds; connect was
      called `|waits| + 1` times, with attempt indices `0 .. |waits|`. */
  method InitializeConnection(cm: ConnectionManager, drivers: Drivers) returns (r: Outcome, waits: seq<nat>)
    ensures |waits| + 1 <= MaxAttempts(cm.config)
    ensures forall j :: 0 <= j < |waits| ==> Connect(cm, drivers, j).Err?
    ensures r.Connected? <==> Connect(cm, drivers, |waits|).Ok?
    ensures r.Connected? ==> Connect(cm, drivers, |waits|) == Ok(r.conn)
    ensures r.GaveUp? ==> Connect(cm, drivers, |waits|) == Err(r.error) && |waits| + 1 == MaxAttempts(cm.config)
    ensures r.TimeoutUnset? ==>
      && Connect(cm, drivers, 0) == Err(r.error)
      && cm.config.retryTimeout.None?
      && waits == []
      && 1 < cm.config.maxRetries
    ensures waits != [] ==> cm.config.retryTimeout.Some?
    ensures forall j :: 0 <= j < |waits| ==> waits[j] == cm.config.retryTimeout.value * (j + 1)
  {
    var attempts: nat := 0;
    waits := [];
    while true
      invariant attempts == |waits| < MaxAttempts(cm.config)
      invariant forall j :: 0 <= j < attempts ==> Connect(cm, drivers, j).Err?
      invariant waits != [] ==> cm.config.retryTimeout.Some?
      invariant forall j :: 0 <= j < |waits| ==> waits[j] == cm.config.retryTimeout.value * (j + 1)
      decreases MaxAttempts(cm.config) - attempts
    {
      var c := Connect(cm, drivers, attempts);
      match c
      case Ok(connection) =>
        return Connected(connection), waits;
      case Err(e) =>
        attempts := attempts + 1;
        if attempts >= cm.config.maxRetries {
          return GaveUp(e), waits;
        }
        if cm.config.retryTimeout.None? {
          return TimeoutUnset(e), waits;
        }
        var backoff := cm.config.retryTimeout.value * attempts;
        waits := waits + [backoff];
    }
  }

  /** Against a database that never answers, with a timeout configured, the manager tries
      exactly `max(1, max_retries)` times, sleeps once fewer, and returns the last error. */
  method ExhaustRetries(cm: ConnectionManager, drivers: Drivers) returns (r: Outcome, waits: seq<nat>)
    requires forall n: nat :: Connect(cm, drivers, n).Err?
    requires cm.config.retryTimeout.Some?
    ensures r.GaveUp? && r.error == Connect(cm, drivers, MaxAttempts(cm.config) - 1).error
    ensures |waits| == MaxAttempts(cm.config) - 1
    ensures TotalWait(waits) == cm.config.retryTimeout.value * (|waits| * (|waits| + 1) / 2)
  {
    r, waits := InitializeConnection(cm, drivers);
    LinearTotal(waits, cm.config.retryTimeout.value);
  }

  function TotalWait(waits: seq<nat>): nat {
    if waits == [] then 0 else TotalWait(waits[..|waits| - 1]) + waits[|waits| - 1]
  }

  /** The linear back-off sleeps `t + 2t + ... + kt` seconds over `k` retries. */
  lemma {:induction false} LinearTotal(waits: seq<nat>, t: nat)
    requires forall j :: 0 <= j < |waits| ==> waits[j] == t * (j + 1)
    ensures TotalWait(waits) == t * (|waits| * (|waits| + 1) / 2)
    decreases |waits|
  {
    if waits != [] {
      var k := |waits|;
      LinearTotal(waits[..k - 1], t);
      assert TotalWait(waits) == t * ((k - 1) * k / 2) + t * k;
      assert (k - 1) * k / 2 + k == k * (k + 1) / 2 by {
        assert (k - 1) * k + 2 * k == k * (k + 1);
      }
    }
  }
}
