/** Optional values and success/failure results, used for the Go code's
    nil-or-value returns and for its error returns and panics. */
module Wrappers {

  datatype Option<+T> = None | Some(value: T)

  datatype Result<+R, +E> = Success(value: R) | Failure(error: E)
}
