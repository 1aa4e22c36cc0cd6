/** Option and Result, the two failure-carrying datatypes the model is written with. */
module Wrappers {

  /** An optional value: a JSON field that may be absent, a path that may be missing. */
  datatype Option<+T> = None | Some(value: T) {

    /** The carried value, or `default` when there is none. */
    function GetOr(default: T): T {
      match this
      case Some(v) => v
      case None => default
    }
  }

  /** The value of an operation that either succeeds or raises an error. */
  datatype Result<+T, +E> = Ok(value: T) | Err(error: E)
}
