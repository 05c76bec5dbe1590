/** Option and Result values shared by the form and the session controller. */
module Wrappers {

  /** A value that may be absent: TypeScript's `T | null` / `T | undefined`. */
  datatype Option<+T> = None | Some(value: T)

  /** The outcome of a call that either returns a value or throws an error message. */
  datatype Result<+R, +E> = Success(value: R) | Failure(error: E)
}
