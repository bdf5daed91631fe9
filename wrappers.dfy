/** Optional values and results with an error, shared by every module of the model. */
module Wrappers {

  /** A value that may be absent: JavaScript's `undefined` / `null`. */
  datatype Option<+T> = None | Some(value: T) {

    /** The value, or `default` when absent. */
    function GetOr(default: T): T {
      match this
      case Some(v) => v
      case None => default
    }

    /** This value when present, otherwise `other` (`a ?? b`). */
    function Or(other: Option<T>): Option<T> {
      if Some? then this else other
    }
  }

  /** The outcome of a request handler: a payload, or an error such as an HTTP status. */
  datatype Result<+T, +E> = Success(value: T) | Failure(error: E)
}
