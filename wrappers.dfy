/** Option and Result: JavaScript's `null` and a thunk's thrown error, made explicit. */
module Wrappers {

  /** A value that may be `null` in the source. */
  datatype Option<+T> = None | Some(value: T)

  /** The outcome of a step that either yields a value or throws an `Error` with a message. */
  datatype Result<+R, +E> = Success(value: R) | Failure(error: E)
}
