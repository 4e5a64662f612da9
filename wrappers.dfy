/** Small failure-carrying datatypes shared by the model. */
module Wrappers {

  datatype Option<+T> = None | Some(value: T) {
    function GetOr(default: T): T {
      match this
      case Some(v) => v
      case None => default
    }
  }

  /** The value of an operation that either completes or throws with a message. */
  datatype Result<+T, +E> = Success(value: T) | Failure(error: E)

  /** An operation that yields nothing on success. */
  datatype Outcome<+E> = Pass | Fail(error: E)
}
