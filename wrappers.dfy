/** Option and Result, the failure-carrying values used across the model. */
module Wrappers {

  datatype Option<+T> = None | Some(value: T)

  /** The outcome of an asynchronous call: the resolved value or the rejection. */
  datatype Result<+R, +E> = Success(value: R) | Failure(error: E)
}
