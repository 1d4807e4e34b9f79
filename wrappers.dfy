/** Optional values and results with an error value, as the Go code's
    `(value, error)` returns and nil pointers are modelled. */
module Wrappers {

  datatype Option<+T> = None | Some(value: T)

  datatype Result<+R, +E> = Success(value: R) | Failure(error: E)
}
