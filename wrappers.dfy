/** Optional values and results of operations that can fail. */
module Wrappers {

  datatype Option<+T> = None | Some(value: T) {
    function GetOr(default: T): T {
      match this
      case Some(v) => v
      case None => default
    }
  }

  /** The outcome of an asynchronous call: a value, or a rejection carrying its error message. */
  datatype Result<+T> = Success(value: T) | Failure(error: string)
}
