/** Failure-compatible result types shared by the scanner, the parser and the glob matcher.
    A `Failure` stands for an exception thrown by the C# code. */
module Wrappers {

  datatype Option<+T> = None | Some(value: T)

  datatype Result<+R, +E> = Success(value: R) | Failure(error: E) {
    predicate IsFailure() {
      Failure?
    }

    function PropagateFailure<U>(): Result<U, E>
      requires Failure?
    {
      Failure(error)
    }

    function Extract(): R
      requires Success?
    {
      value
    }
  }

  /** The outcome of a C# `void` method that may throw. */
  datatype Outcome<+E> = Pass | Fail(error: E)
}
