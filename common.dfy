/** Types shared by the framework's components: results, byte buffers, application
    types and the core error enum with its `Display` text. */
module Common {

  datatype Option<+T> = None | Some(value: T)

  /** Rust's `Result`, usable with `:-` the way the source uses `?`. */
  datatype Result<+T, +E> = Ok(value: T) | Err(error: E) {
    predicate IsFailure() { Err? }

    function PropagateFailure<U>(): Result<U, E>
      requires Err?
    {
      Err(error)
    }

    function Extract(): T
      requires Ok?
    {
      value
    }
  }

  /** `r.map_err(|e| format!("{prefix}{e}"))` */
  function MapErr<T>(r: Result<T, string>, prefix: string): (m: Result<T, string>)
    ensures r.Ok? ==> m == r
    ensures r.Err? ==> m == Err(prefix + r.error)
  {
    match r
    case Ok(v) => Ok(v)
    case Err(e) => Err(prefix + e)
  }

  /** An unsigned byte (`u8`). */
  newtype u8 = x: int | 0 <= x < 256

  /** A `Box<[u8]>` buffer. */
  type Buffer = seq<u8>

  /** `vec![0u8; n].into_boxed_slice()` */
  function Zeros(n: nat): (b: Buffer)
    ensures |b| == n
    ensures forall i :: 0 <= i < n ==> b[i] == 0
  {
    seq(n, _ => 0)
  }

  /** The application types of `ApplicationType` (ArxFramework's five variants). */
  datatype AppType = WebApp | ApiBackend | DesktopApp | AutomationScript | EmbeddedSystem

  /** `CoreConfig`: the application type a build runs as, and its thread limit. */
  datatype CoreConfig = CoreConfig(appType: AppType, maxThreads: nat)

  /** `CoreError`, identical in every draft of the core. */
  datatype CoreError =
    | InitializationError(msg: string)
    | ResourceAllocationError(msg: string)
    | ConfigurationError(msg: string)
    | UnsupportedOperationError(msg: string)
    | GenericError(msg: string)

  /** The `Display` implementation of `CoreError`. */
  function Display(e: CoreError): string {
    match e
    case InitializationError(m) => "InitializationError: " + m
    case ResourceAllocationError(m) => "ResourceAllocationError: " + m
    case ConfigurationError(m) => "ConfigurationError: " + m
    case UnsupportedOperationError(m) => "UnsupportedOperationError: " + m
    case GenericError(m) => "Error: " + m
  }

  function DigitChar(d: nat): char
    requires d < 10
  {
    "0123456789"[d]
  }

  /** Decimal rendering of a number, as `format!("{}", n)` prints it. */
  function NatToString(n: nat): string
    decreases n
  {
    if n < 10 then [DigitChar(n)] else NatToString(n / 10) + [DigitChar(n % 10)]
  }
}
