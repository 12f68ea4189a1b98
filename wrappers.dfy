/** Failure-carrying values used in place of the source's thrown QString errors. */
module Wrappers {

  datatype Option<T> = None | Some(value: T)

  /** Success(v), or Failure(msg) where the source throws `msg`. */
  datatype Result<T> = Success(value: T) | Failure(error: string) {
    predicate IsFailure() {
      Failure?
    }

    function PropagateFailure<U>(): Result<U>
      requires Failure?
    {
      Failure(error)
    }

    function Extract(): T
      requires Success?
    {
      value
    }
  }

  /** Completion of an operation with no result: Done, or Thrown(msg) where the source throws `msg`. */
  datatype Outcome = Done | Thrown(message: string)
}
