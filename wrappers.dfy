/** Option and Result values shared by every module of the model. */
module Wrappers {

  /** A value that may be absent (the source's `null` / "no match"). */
  datatype Option<+T> = None | Some(value: T)

  /** The outcome of an operation that may throw: `Failure` carries the error message. */
  datatype Result<+T> = Success(value: T) | Failure(error: string)
}
