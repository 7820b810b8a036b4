/** Option and Result, the two failure-carrying shapes the model uses. */
module Wrappers {

  /** A value that may be absent (Go's nil slice, a failed `strconv.Atoi`). */
  datatype Option<+T> = None | Some(value: T)

  /** A value or the error that replaced it (Go's `(T, error)` return pair). */
  datatype Result<+R, +E> = Success(value: R) | Failure(error: E)
}
