/** Values standing in for Java's nullable references and for calls that throw. */
module Wrappers {

  /** `Some(v)` for a reference to `v`, `None` for `null`. */
  datatype Option<+T> = None | Some(value: T)

  /** `Success(v)` for a call that returned `v`, `Failure(e)` for one that threw `e`;
      usable with `:-` to pass the exception on. */
  datatype Result<+R, +E> = Success(value: R) | Failure(error: E) {

    predicate IsFailure() {
      Failure?
    }

    function PropagateFailure<U>(): Result<U, E>
      requires Failure?
    {
      Failure(error)
    }

    function Extract(): R
      requires Success?
    {
      value
    }
  }
}
