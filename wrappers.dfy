/** Option, Result and Outcome: the failure-carrying values that stand for
    Python's missing values and raised exceptions throughout the model. */
module Wrappers {

  datatype Option<+T> = None | Some(value: T)

  /** A computation that either produced a value or raised an error. */
  datatype Result<+R, +E> = Success(value: R) | Failure(error: E)

  /** A computation that either completed or raised an error. */
  datatype Outcome<+E> = Pass | Fail(error: E)
}
