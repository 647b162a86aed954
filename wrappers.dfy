/** Option and Result, the two failure-carrying shapes used throughout the model. */
module Wrappers {

  /** `T | null` / `T | undefined` of the dashboard's records. */
  datatype Option<+T> = None | Some(value: T)

  /** A value, or the message of the exception the source throws. */
  datatype Result<+R, +E> = Success(value: R) | Failure(error: E)
}
