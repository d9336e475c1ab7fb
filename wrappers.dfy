/** Failure-carrying wrappers used for Ruby's `nil` results and raised errors. */
module Wrappers {

  /** A value or nothing (Ruby's `nil`). */
  datatype Option<T> = None | Some(value: T)

  /** A value or the error that was raised instead of returning it. */
  datatype Result<T, E> = Ok(value: T) | Err(error: E)

  /** Success without a value, or the error that was raised. */
  datatype Outcome<E> = Pass | Fail(error: E)
}
