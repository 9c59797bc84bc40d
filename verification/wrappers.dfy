/** The optional value used for every field of the loosely typed JSON records, and the outcome of a fallible step. */
module Wrappers {

  datatype Option<+T> = None | Some(value: T) {

    /** The value, or `default` when absent. */
    function GetOr(default: T): T {
      match this
      case Some(v) => v
      case None => default
    }
  }

  /** The outcome of an operation that either produces a value or fails with a message. */
  datatype Result<+T> = Success(value: T) | Failure(error: string)
}
