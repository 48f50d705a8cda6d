/** Option and success/failure values shared by the other modules. */
module Wrappers {

  /** A value that may be absent: a JavaScript `undefined`/`null` field or lookup. */
  datatype Option<+T> = None | Some(value: T) {

    /** The value, or `default` when absent (the `x || default` idiom on objects and arrays). */
    function GetOr(default: T): T {
      match this
      case Some(v) => v
      case None => default
    }
  }

  /** The outcome of an operation that either returns a value or throws. */
  datatype Outcome<+T, +E> = Ok(value: T) | Err(error: E)
}
