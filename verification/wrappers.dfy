/** Failure-carrying results used for the exceptions the Java code throws. */
module Wrappers {

  datatype Option<+T> = None | Some(value: T)

  /** A value or the error that the Java code would have thrown instead. */
  datatype Result<+R, +E> = Success(value: R) | Failure(error: E)
  {
    predicate IsFailure() { Failure? }

    function PropagateFailure<U>(): Result<U, E>
      requires Failure?
    {
      Failure(error)
    }

    function Extract(): R
      requires Success?
    {
      value
    }
  }

  /** Success or failure of an operation that returns nothing (a Java `void`). */
  datatype Outcome<+E> = Pass | Fail(error: E)
}
