/** Absent-or-present values and success-or-error results shared by the other modules. */
module Wrappers {

  /** A value that may be missing (an optional document field, a response that never came). */
  datatype Option<+T> = None | Some(value: T)

  /** The outcome of an operation that throws an `Error` with a message on failure. */
  datatype Result<+T> = Success(value: T) | Failure(error: string)
}
