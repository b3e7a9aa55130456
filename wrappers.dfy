/** Plain result and option datatypes for the error paths of the model. */
module Wrappers {

  /** A value or the error that stopped its computation. */
  datatype Result<+R, +E> = Success(value: R) | Failure(error: E)

  /** Success without a value, or the error that was raised. */
  datatype Outcome<+E> = Pass | Fail(error: E)

  /** An optional value. */
  datatype Option<+T> = None | Some(value: T)
}
