/** Optional values and error-or-value results, standing for Go's nil references and (value, error) pairs. */
module Wrappers {

  datatype Option<+T> = None | Some(value: T) {
    /** The pointed-to value, or the zero value `default` for nil (the package's `deref`). */
    function GetOr(default: T): T {
      match this
      case Some(v) => v
      case None => default
    }
  }

  datatype Result<+T, +E> = Success(value: T) | Failure(error: E)
}
