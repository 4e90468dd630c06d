/** Option, Outcome and Result: the `undefined`/`null` values and the thrown
    errors of the stores, written as data. */
module Wrappers {

  /** A value that may be missing (`undefined` or `null` in the stores). */
  datatype Option<+T> = None | Some(value: T)

  /** Success of an action that returns nothing, or the message it throws. */
  datatype Outcome<+E> = Pass | Fail(error: E)

  /** The value an action returns, or the message it throws. */
  datatype Result<+R, +E> = Success(value: R) | Failure(error: E)
}
