/** Failure-carrying wrappers shared by every module of the model. */
module Wrappers {

  /** A value that may be absent: a JavaScript `undefined` or an optional field. */
  datatype Maybe<+T> = Nothing | Just(value: T)

  /** The outcome of an operation that may throw. */
  datatype Result<+T, +E> = Success(value: T) | Failure(error: E)
}
