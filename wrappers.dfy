/** Optional values and success/failure outcomes, the shapes the JavaScript
    source expresses with `undefined` and with thrown errors. */
module Wrappers {

  /** A value that may be absent (`undefined` in the source). */
  datatype Option<+T> = None | Some(value: T) {

    /** The value if present, otherwise `default` (the source's `??`). */
    function GetOr(default: T): T {
      match this
      case Some(v) => v
      case None => default
    }
  }

  /** The outcome of an operation that either completes or throws a message. */
  datatype Outcome<+E> = Pass | Fail(error: E)

  /** The outcome of an operation that either yields a value or throws a message. */
  datatype Result<+R, +E> = Success(value: R) | Failure(error: E)
}
