/** Optional values (JavaScript `undefined`/`null` in typed fields) and success-or-error results. */
module Wrappers {

  datatype Option<+T> = None | Some(value: T) {

    /** Returns the value inside Some, or `default` when there is none. */
    function GetOr(default: T): T {
      match this
      case Some(v) => v
      case None => default
    }
  }

  /** The value of an operation that either succeeds or fails with an error (a rejected promise, a throw). */
  datatype Result<+T, +E> = Ok(value: T) | Err(error: E)
}
