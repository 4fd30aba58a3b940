/**
  The error vocabulary of the command-line client and the two failure-carrying
  wrappers the session engine needs: an optional value (Rust's `Option`) and a
  result whose failure is always a `CliError` (the crate-wide `Result<T>` alias).
 */
module Errors {

  /** Rust's `Option<T>`. */
  datatype Option<+T> = None | Some(value: T) {

    /** The carried value, or `default` when there is none (`unwrap_or`). */
    function GetOr(default: T): (r: T)
      ensures Some? ==> r == value
      ensures None? ==> r == default
    {
      match this
      case Some(v) => v
      case None => default
    }
  }

  /** Every failure the client can report. `Network` and `Io` carry the display
      text of the wrapped library error, which is not part of this model. */
  datatype CliError =
    | Api(message: string)
    | Auth(message: string)
    | Config(message: string)
    | Network(message: string)
    | Io(message: string)
    | Serialization(message: string)
    | NotAuthenticated
    | InvalidResponse
    | Other(message: string)

  /** The crate-wide result type: success with a value, or a `CliError`. */
  datatype Result<+T> = Ok(value: T) | Err(error: CliError) {

    /** The success value, or the empty/zero value the caller supplies on
        failure (`unwrap_or_default`, `unwrap_or`). */
    function GetOr(default: T): (r: T)
      ensures Ok? ==> r == value
      ensures Err? ==> r == default
    {
      match this
      case Ok(v) => v
      case Err(_) => default
    }
  }

  /** The user-facing text of an error, as its `Display` implementation
      renders it. */
  function Describe(e: CliError): string
  {
    match e
    case Api(m) => "API error: " + m
    case Auth(m) => "Authentication error: " + m
    case Config(m) => "Configuration error: " + m
    case Network(m) => "Network error: " + m
    case Io(m) => "IO error: " + m
    case Serialization(m) => "Serialization error: " + m
    case NotAuthenticated => "Not authenticated. Please run 'zere login' first"
    case InvalidResponse => "Invalid response from server"
    case Other(m) => m
  }
}
