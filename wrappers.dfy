/** Failure-carrying values shared by every module of the model. */
module Wrappers {

  /** A value that may be absent (JavaScript `undefined` / `null`). */
  datatype Option<+T> = None | Some(value: T)

  /** A computation that either yields a value or throws an error carrying a message. */
  datatype Result<+T> = Success(value: T) | Failure(error: string)
}
