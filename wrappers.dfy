/** Failure-compatible wrappers shared by the tracker modules. */
module Wrappers {

  /** A value that may be absent; models Python's `None`. */
  datatype Option<+T> = None | Some(value: T)

  /** The outcome of an operation that may raise. */
  datatype Result<+R, +E> = Success(value: R) | Failure(error: E) {

    /** The success value, or `default` when the operation failed. */
    function GetOr(default: R): R {
      match this
      case Success(v) => v
      case Failure(_) => default
    }
  }
}
