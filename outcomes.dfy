/** Option and Result: the two error-carrying shapes the Go code returns as
    (value, error) pairs. */
module Outcomes {

  datatype Option<+T> = None | Some(value: T)

  datatype Result<+R, +E> = Success(value: R) | Failure(error: E)
}
