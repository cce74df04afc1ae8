/** Failure-carrying wrappers shared by the other modules. */
module Wrappers {

  /** A value that may be absent (a null pointer, a `std::nullopt`). */
  datatype Option<+T> = None | Some(value: T)

  /** The value of a call that may throw: the result, or the error it raised. */
  datatype Result<+T, +E> = Ok(value: T) | Err(error: E)
}
