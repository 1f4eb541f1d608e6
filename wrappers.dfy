/** Failure-carrying datatypes shared by the quota store and the turn handler. */
module Wrappers {

  /** A value that may be absent: a missing store item or a missing field of one. */
  datatype Option<+T> = None | Some(value: T) {

    /** The value, or `default` when it is absent. */
    function GetOr(default: T): T {
      match this
      case Some(v) => v
      case None => default
    }
  }

  /** The outcome of an operation that returns a value or throws. */
  datatype Result<+R, +E> = Success(value: R) | Failure(error: E)

  /** The outcome of an operation that returns nothing or throws. */
  datatype Outcome<+E> = Pass | Fail(error: E)
}
