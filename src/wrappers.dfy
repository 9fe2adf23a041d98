/** Shared value wrappers: an optional value (the source's null / undefined)
    and the outcome of an operation that may throw or reject. */
module Wrappers {

  /** A value that may be absent: `null`, `undefined` or a missing map entry in the source. */
  datatype Option<+T> = None | Some(value: T) {

    /** The wrapped value, or `default` when absent. */
    function GetOr(default: T): T {
      match this
      case Some(v) => v
      case None => default
    }
  }

  /** A value, or the message of the error thrown (or the promise rejected) instead. */
  datatype Result<+T> = Ok(value: T) | Err(error: string)
}
