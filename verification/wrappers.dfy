/** Failure-carrying values shared by every module of the model. */
module Wrappers {

  /** A value that may be missing: an absent profile, a date cell that does not parse. */
  datatype Option<+T> = None | Some(value: T)

  /** The outcome of an operation that the dashboard lets raise an exception. */
  datatype Result<+T, +E> = Ok(value: T) | Err(error: E)
}
