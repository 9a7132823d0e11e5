/** Option and Result, used across the connector model. */
module Wrappers {

  /** A value that may be absent; `None` stands for Go's nil. */
  datatype Option<+T> = None | Some(value: T)

  /** The outcome of a call that returns either a value or an error. */
  datatype Result<+R, +E> = Success(value: R) | Failure(error: E)
}
