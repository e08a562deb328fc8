/** Failure-carrying datatypes shared by the whole model. */
module Wrappers {

  datatype Option<+T> = None | Some(value: T)

  /** The outcome of something that can throw: a value, or the thrown error. */
  datatype Result<+T, +E> = Success(value: T) | Failure(error: E)
}
