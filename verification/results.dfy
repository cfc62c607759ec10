/** Failure-compatible wrappers used across the model: an optional value and
    a value-or-error result.  A Python exception raised by the modelled code
    becomes a `Failure` carrying a description of the error.
 */
module Results {

  datatype Option<+T> = None | Some(value: T)

  datatype Result<+R, +E> = Success(value: R) | Failure(error: E) {

    predicate IsFailure() {
      Failure?
    }

    function PropagateFailure<U>(): Result<U, E>
      requires Failure?
    {
      Failure(error)
    }

    function Extract(): R
      requires Success?
    {
      value
    }
  }
}
