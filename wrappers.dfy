/** Option and Result, the two failure-carrying shapes the rest of the model uses:
    `None` stands for JavaScript's `undefined`/`NaN` results, `Failure` for a thrown error. */
module Wrappers {

  datatype Option<+T> = None | Some(value: T)

  datatype Result<+T, +E> = Success(value: T) | Failure(error: E)

  /** An action that either completes or fails with an error, with no value. */
  datatype Outcome<+E> = Pass | Fail(error: E)
}
