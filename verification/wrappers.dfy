/** Optional values and success/failure results shared by every module. */
module Wrappers {

  /** A value that may be absent (`undefined` in the application). */
  datatype Option<+T> = None | Some(value: T) {

    /** The carried value, or `default` when absent. */
    function GetOr(default: T): T {
      match this
      case Some(v) => v
      case None => default
    }
  }

  /** The outcome of a validation: the accepted value or the reason it was refused. */
  datatype Result<+T, +E> = Success(value: T) | Failure(error: E)
}
