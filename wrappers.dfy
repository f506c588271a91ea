/** Optional values and results with an error payload, used for Python's `None`
    and for exceptions that the model turns into values. */
module Wrappers {

  datatype Option<+T> = None | Some(value: T) {
    /** `d.get(key, default)` style access: the value, or the default when absent. */
    function GetOr(default: T): T {
      match this
      case Some(v) => v
      case None => default
    }
  }

  /** A computation that either returns a value or raises an exception whose
      message is `error`. */
  datatype Result<+T> = Success(value: T) | Failure(error: string)
}
