/** Failure-compatible Option and Result datatypes used throughout the model.
    Every `panic!` and every `unwrap()` on a failing value in the gateway,
    once the request body has been read, becomes a `Failure` here, so that the model states which error a request
    ends in instead of aborting. */
module Wrappers {

  /** Rust's `Option<T>`. */
  datatype Option<+T> = None | Some(value: T)

  /** A value or an error; usable with `:-`. */
  datatype Result<+R, +E> = Success(value: R) | Failure(error: E) {

    predicate IsFailure() {
      Failure?
    }

    function PropagateFailure<U>(): Result<U, E>
      requires Failure?
    {
      Failure(error)
    }

    function Extract(): R
      requires Success?
    {
      value
    }
  }
}
