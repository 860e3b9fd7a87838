/** Failure-carrying datatypes used to model Python's raised exceptions as values. */
module Wrappers {

  datatype Option<+T> = None | Some(value: T)

  /** A computation that either produced a value or raised an error. */
  datatype Result<+R, +E> = Ok(value: R) | Err(error: E)

  /** A computation with no value of its own that either completed or raised an error. */
  datatype Outcome<+E> = Pass | Fail(error: E)
}
