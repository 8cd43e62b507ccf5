/** The database back ends the connection managers talk to, and the driver calls they
    make, as inputs. The `n`-th argument of every driver call is the index of the
    connection attempt, so a driver may fail on some attempts and succeed on others. */
module Drivers {
  import opened Common

  /** The `database_type` a connection configuration selects. */
  datatype Backend = Postgres | SQLite | MongoDB

  /** `DbConnection`: a handle from the driver, tagged with its back end. */
  datatype DbConnection = PgConnection(handle: nat) | SqliteConnection(handle: nat) | MongoClient(handle: nat)

  function BackendOf(c: DbConnection): Backend {
    match c
    case PgConnection(_) => Postgres
    case SqliteConnection(_) => SQLite
    case MongoClient(_) => MongoDB
  }

  /** The driver entry points: diesel's `PgConnection::establish` and
      `SqliteConnection::establish`, mongodb's `ClientOptions::parse` and
      `Client::with_options`. Each takes the attempt index last; errors are their
      `to_string()` text. */
  datatype Drivers = Drivers(
    pgEstablish: (string, nat) -> Result<nat, string>,
    sqliteEstablish: (string, nat) -> Result<nat, string>,
    mongoParseOptions: (string, nat) -> Result<nat, string>,
    mongoWithOptions: (nat, nat) -> Result<nat, string>)

  /** Two driver sets that behave alike for back end `b` on attempt `n`. */
  ghost predicate SameBackendBehaviour(d1: Drivers, d2: Drivers, b: Backend, url: string, n: nat) {
    match b
    case Postgres => d1.pgEstablish(url, n) == d2.pgEstablish(url, n)
    case SQLite => d1.sqliteEstablish(url, n) == d2.sqliteEstablish(url, n)
    case MongoDB =>
      && d1.mongoParseOptions(url, n) == d2.mongoParseOptions(url, n)
      && (forall o :: d1.mongoWithOptions(o, n) == d2.mongoWithOptions(o, n))
  }

  /** `base` raised to `exp` (`Duration::pow` on whole seconds). */
  function Pow(base: nat, exp: nat): nat {
    if exp == 0 then 1 else base * Pow(base, exp - 1)
  }
}
