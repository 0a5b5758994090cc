/** Small result types shared by every module of the model. */
module Wrappers {

  datatype Option<+T> = None | Some(value: T)

  /** A computation that yields a value or an error. */
  datatype Result<+T, +E> = Success(value: T) | Failure(error: E)

  /** The `(success, message)` pairs of the map operations: `Pass` or `Fail(e)`. */
  datatype Outcome<+E> = Pass | Fail(error: E)
}
