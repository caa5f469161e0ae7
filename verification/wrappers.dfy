/** Optional values and results, used for the source's `undefined` fields and
    its thrown errors. */
module Wrappers {

  /** A value that may be absent (a TypeScript optional field or `undefined`). */
  datatype Option<+T> = None | Some(value: T) {

    /** The wrapped value, or `default` when absent. */
    function GetOr(default: T): T {
      match this
      case Some(v) => v
      case None => default
    }
  }

  /** The outcome of an operation that can throw: a value or an error. */
  datatype Result<+T, +E> = Ok(value: T) | Err(error: E)
}
