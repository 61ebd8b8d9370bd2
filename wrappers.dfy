/** Failure-compatible wrappers used to model the library's null values and exceptions. */
module Wrappers {

  /** A value that may be absent: the library's `Null<T>()` sentinel, or an unset pointer. */
  datatype Option<+T> = None | Some(value: T)

  /** A computed value, or the exception that the computation raised. */
  datatype Result<+R, +E> = Success(value: R) | Failure(error: E) {
    predicate IsFailure() { Failure? }

    function PropagateFailure<U>(): Result<U, E>
      requires Failure?
    {
      Failure(error)
    }

    function Extract(): R
      requires Success?
    {
      value
    }
  }

  /** Normal completion of a `void` operation, or the exception it raised. */
  datatype Outcome<+E> = Pass | Fail(error: E)
}
