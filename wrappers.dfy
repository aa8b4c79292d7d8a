/** The optional value and the success-or-error value used by the models. */
module Wrappers {

  /** A value that may be absent (JavaScript's `undefined`, `null` or `NaN`). */
  datatype Option<+T> = None | Some(value: T)

  /** The outcome of an operation that may throw. */
  datatype Result<+T, +E> = Success(value: T) | Failure(error: E)
}
