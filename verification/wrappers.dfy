/** The option and result types of the model. A result carries either a
    value or the exception the simulator would raise, and `:-` passes the
    exception on. */
module Wrappers {

  /** A value that may be absent (a dictionary lookup that can miss). */
  datatype Option<+T> = None | Some(value: T)

  /** Either a computed value or the error the Python code would raise. */
  datatype Result<+R, +E> = Success(value: R) | Failure(error: E) {
    predicate IsFailure() {
      Failure?
    }

    function PropagateFailure<U>(): Result<U, E>
      requires Failure?
    {
      Failure(error)
    }

    function Extract(): R
      requires Success?
    {
      value
    }
  }
}
