/** `Option` stands for an input that may be absent or unparsable; `Result`
    stands for a computation that may raise, carrying what it raised. */
module Wrappers {

  /** An optional value: `None` for an absent or unparsable input. */
  datatype Option<+T> = None | Some(value: T)

  /** Either a value or the error that stopped its computation. */
  datatype Result<+R, +E> = Success(value: R) | Failure(error: E) {

    predicate IsFailure() {
      Failure?
    }

    function PropagateFailure<U>(): Result<U, E>
      requires Failure?
    {
      Failure(error)
    }

    function Extract(): R
      requires Success?
    {
      value
    }
  }
}
