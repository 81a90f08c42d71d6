/** The optional-value and success-or-error types used across the storefront model. */
module Wrappers {

  /** A value that may be absent (JavaScript `undefined`/`null` for an optional field). */
  datatype Option<+T> = None | Some(value: T) {
    function GetOr(default: T): T {
      match this
      case Some(v) => v
      case None => default
    }
  }

  /** The outcome of an operation that either yields a value or fails with a message. */
  datatype Result<+T, +E> = Ok(value: T) | Err(error: E)
}
