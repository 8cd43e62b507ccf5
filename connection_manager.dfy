/** `network/connection_manager.rs` of SolidArx-Framework: the draft of the connection
    manager whose back-off is `retry_timeout.pow(attempts)` and whose errors are boxed
    driver errors (here: their text). */
module PowConnectionManager {
  import opened Common
  import opened Drivers

  /** The configuration fields this draft reads (declared in `database_config.rs`, which is
      not part of this model); `retryTimeout` is in whole seconds and always present. */
  datatype ConnectionConfig = ConnectionConfig(
    databaseType: Backend,
    databaseUrl: string,
    maxRetries: nat,
    retryTimeout: nat)

  datatype ConnectionManager = ConnectionManager(config: ConnectionConfig)

  /** `ConnectionManager::new` keeps the configuration it is given. */
  function New(config: ConnectionConfig): (cm: ConnectionManager)
    ensures cm.config == config
  {
    ConnectionManager(config)
  }

  /** `connect` on attempt `n`: the selected back end's driver, its error passed on as is. */
  function Connect(cm: ConnectionManager, drivers: Drivers, n: nat): (r: Result<DbConnection, string>)
    ensures r.Ok? ==> BackendOf(r.value) == cm.config.databaseType
  {
    var url := cm.config.databaseUrl;
    match cm.config.databaseType
    case Postgres =>
      (match drivers.pgEstablish(url, n)
       case Ok(h) => Ok(PgConnection(h))
       case Err(e) => Err(e))
    case SQLite =>
      (match drivers.sqliteEstablish(url, n)
       case Ok(h) => Ok(SqliteConnection(h))
       case Err(e) => Err(e))
    case MongoDB =>
      (match drivers.mongoParseOptions(url, n)
       case Err(e) => Err(e)
       case Ok(options) =>
         match drivers.mongoWithOptions(options, n)
         case Err(e) => Err(e)
         case Ok(h) => Ok(MongoClient(h)))
  }

  /** Drivers that agree on the selected back end give the same outcome. */
  lemma ConnectUsesOneBackend(cm: ConnectionManager, d1: Drivers, d2: Drivers, n: nat)
    requires SameBackendBehaviour(d1, d2, cm.config.databaseType, cm.config.databaseUrl, n)
    ensures Connect(cm, d1, n) == Connect(cm, d2, n)
  {
    if cm.config.databaseType.MongoDB? {
      var url := cm.config.databaseUrl;
      if d1.mongoParseOptions(url, n).Ok? {
        assert d1.mongoWithOptions(d1.mongoParseOptions(url, n).value, n)
            == d2.mongoWithOptions(d1.mongoParseOptions(url, n).value, n);
      }
    }
  }

  /** The number of connects made when every one fails. */
  function MaxAttempts(config: ConnectionConfig): nat {
    if config.maxRetries == 0 then 1 else config.maxRetries
  }

  /** `initialize_connection`. `waits` lists the requested sleeps in seconds; connect was
      called `|waits| + 1` times, with attempt indices `0 .. |waits|`. */
  method InitializeConnection(cm: ConnectionManager, drivers: Drivers) returns (r: Result<DbConnection, string>, waits: seq<nat>)
    ensures |waits| + 1 <= MaxAttempts(cm.config)
    ensures forall j :: 0 <= j < |waits| ==> Connect(cm, drivers, j).Err?
    ensures r == Connect(cm, drivers, |waits|)
    ensures r.Err? ==> |waits| + 1 == MaxAttempts(cm.config)
    ensures forall j :: 0 <= j < |waits| ==> waits[j] == Pow(cm.config.retryTimeout, j + 1)
  {
    var attempts: nat := 0;
    waits := [];
    while true
      invariant attempts == |waits| < MaxAttempts(cm.config)
      invariant forall j :: 0 <= j < attempts ==> Connect(cm, drivers, j).Err?
      invariant forall j :: 0 <= j < |waits| ==> waits[j] == Pow(cm.config.retryTimeout, j + 1)
      decreases MaxAttempts(cm.config) - attempts
    {
      var c := Connect(cm, drivers, attempts);
      match c
      case Ok(connection) =>
        return Ok(connection), waits;
      case Err(e) =>
        attempts := attempts + 1;
        if attempts >= cm.config.maxRetries {
          return Err(e), waits;
        }
        waits := waits + [Pow(cm.config.retryTimeout, attempts)];
    }
  }

  /** Against a database that never answers, the manager tries exactly
      `max(1, max_retries)` times and sleeps once fewer. */
  method ExhaustRetries(cm: ConnectionManager, drivers: Drivers) returns (r: Result<DbConnection, string>, waits: seq<nat>)
    requires forall n: nat :: Connect(cm, drivers, n).Err?
    ensures r == Connect(cm, drivers, MaxAttempts(cm.config) - 1)
    ensures |waits| == MaxAttempts(cm.config) - 1
  {
    r, waits := InitializeConnection(cm, drivers);
  }

  /** The back-off grows with the attempt count when the timeout is at least two seconds;
      a one-second timeout always waits one second and a zero timeout never waits. */
  lemma PowBackoffGrowth(t: nat, i: nat, j: nat)
    requires 1 <= i < j
    ensures t >= 2 ==> Pow(t, i) < Pow(t, j)
    ensures t == 1 ==> Pow(t, i) == 1 && Pow(t, j) == 1
    ensures t == 0 ==> Pow(t, i) == 0 && Pow(t, j) == 0
  {
    PowStrictlyIncreasing(t, i, j);
    PowOfSmall(t, i);
    PowOfSmall(t, j);
  }

  lemma {:induction false} PowStrictlyIncreasing(t: nat, i: nat, j: nat)
    requires i < j
    ensures t >= 2 ==> Pow(t, i) < Pow(t, j)
    decreases j - i
  {
    if t >= 2 {
      PowPositive(t, j - 1);
      if i < j - 1 {
        PowStrictlyIncreasing(t, i, j - 1);
      }
      AtLeastDouble(t, Pow(t, j - 1));
    }
  }

  lemma AtLeastDouble(t: nat, p: nat)
    requires t >= 2
    ensures 2 * p <= t * p
  {
    var extra: nat := (t - 2) * p;
    assert t * p == 2 * p + extra;
  }

  lemma {:induction false} PowPositive(t: nat, k: nat)
    requires t >= 1
    ensures Pow(t, k) >= 1
    decreases k
  {
    if k > 0 {
      PowPositive(t, k - 1);
      assert Pow(t, k) == t * Pow(t, k - 1);
    }
  }

  lemma {:induction false} PowOfSmall(t: nat, k: nat)
    requires k >= 1
    ensures t == 1 ==> Pow(t, k) == 1
    ensures t == 0 ==> Pow(t, k) == 0
    decreases k
  {
    if k > 1 {
      PowOfSmall(t, k - 1);
    }
  }

  /** The sleeps requested by a run are in non-decreasing order, and strictly increasing
      once the timeout is at least two seconds. */
  lemma WaitsIncrease(waits: seq<nat>, t: nat, i: nat, j: nat)
    requires forall k :: 0 <= k < |waits| ==> waits[k] == Pow(t, k + 1)
    requires i < j < |waits|
    ensures waits[i] <= waits[j]
    ensures t >= 2 ==> waits[i] < waits[j]
  {
    PowBackoffGrowth(t, i + 1, j + 1);
  }
}
