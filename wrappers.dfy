/** Optional values and results, used wherever the Go code returns a nil
    pointer or an (value, error) pair. */
module Wrappers {

  datatype Option<+T> = None | Some(value: T) {
    /** The value, or the given default (Go's zero value) when absent. */
    function GetOr(default: T): T {
      match this
      case Some(v) => v
      case None => default
    }
  }

  datatype Result<+T, +E> = Success(value: T) | Failure(error: E)
}
