/** Outcome datatypes: `Option` for a value that may be absent (JavaScript
    `null` or `undefined`), `Result` for an operation that either returns or
    throws. */
module Wrappers {

  datatype Option<+T> = None | Some(value: T) {

    /** The value, or `default` when there is none. */
    function GetOr(default: T): T
    {
      match this
      case Some(v) => v
      case None => default
    }
  }

  datatype Result<+R, +E> = Success(value: R) | Failure(error: E)
}
