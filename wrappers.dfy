/** Failure-carrying return values shared by every module of the model. */
module Wrappers {

  /** A value that may be absent (Python's `Optional[...]`, TypeScript's `undefined`). */
  datatype Option<+T> = None | Some(value: T)

  /** Either a value or the error that was raised instead of producing one. */
  datatype Result<+T, +E> = Success(value: T) | Failure(error: E)
}
