/**
 * Error payloads: `SimfinityError` carries a code and a status,
 * `InternalServerError` wraps anything else, and the formatter handed to the
 * GraphQL server surfaces every throwable as one of them.
 */
module Errors {
  import opened Wrappers

  /** `{message, extensions: {code, status}, cause}`; the wall-clock timestamp is not modelled. */
  datatype AppError = AppError(message: string, code: string, status: Option<int>, cause: Option<string>)

  /** What an operation can throw: a SimfinityError, or any other error (by its message). */
  datatype Thrown = Known(err: AppError) | Unknown(message: string)

  function SimfinityError(message: string, code: string, status: int): AppError {
    AppError(message, code, Some(status), None)
  }

  /** `new InternalServerError(message, cause)`: no status, the cause kept for diagnostics. */
  function InternalServerError(message: string, cause: string): AppError {
    AppError(message, "INTERNAL_SERVER_ERROR", None, Some(cause))
  }

  /** The message of the TypeError thrown by reading property `key` of `holder` (`null` or `undefined`). */
  function PropertyRead(holder: string, key: string): string {
    "Cannot read properties of " + holder + " (reading '" + key + "')"
  }

  function NullRead(key: string): string {
    PropertyRead("null", key)
  }

  /** The first step of `formatError` (src/index.js:68-73). */
  function Surface(err: Thrown): (r: AppError)
    ensures err.Known? ==> r == err.err
    ensures err.Unknown? ==>
              r.code == "INTERNAL_SERVER_ERROR" && r.status.None? &&
              r.message == err.message && r.cause == Some(err.message)
  {
    match err
    case Known(e) => e
    case Unknown(m) => InternalServerError(m, m)
  }

  /**
   * `buildErrorFormatter(callback)(err)` (src/index.js:66-82): the surfaced
   * error, replaced by what the callback returns when it returns something.
   */
  function FormatError(callback: Option<AppError -> Option<AppError>>, err: Thrown): (r: AppError)
    ensures callback.None? ==> r == Surface(err)
    ensures callback.Some? && callback.value(Surface(err)).None? ==> r == Surface(err)
    ensures callback.Some? && callback.value(Surface(err)).Some? ==> r == callback.value(Surface(err)).value
  {
    var result := Surface(err);
    if callback.Some? then callback.value(result).GetOr(result) else result
  }

  /** The message a throw carries. */
  function MessageOf(err: Thrown): string {
    match err
    case Known(e) => e.message
    case Unknown(m) => m
  }

  /**
   * Whatever the callback, when it offers no replacement the client sees the
   * thrown message, under the thrown `SimfinityError`'s own code or under
   * `INTERNAL_SERVER_ERROR`.
   */
  lemma FormatErrorKeepsMessage(callback: Option<AppError -> Option<AppError>>, err: Thrown)
    requires callback.None? || callback.value(Surface(err)).None?
    ensures FormatError(callback, err).message == MessageOf(err)
    ensures FormatError(callback, err).code == (if err.Known? then err.err.code else "INTERNAL_SERVER_ERROR")
    ensures err.Unknown? ==> FormatError(callback, err).status.None?
  {
  }
}
