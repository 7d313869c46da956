/** Option and Result, for values that may be absent (a nil pointer) or fail (a Go error). */
module Wrappers {

  datatype Option<+T> = None | Some(value: T)

  datatype Result<+T, +E> = Success(value: T) | Failure(error: E)
}
