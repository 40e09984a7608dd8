/** Option and Result values for the source's null references and thrown exceptions. */
module Results {

  datatype Option<+T> = None | Some(value: T)

  /** A computation that either produced a value or stopped the way the source's exception would. */
  datatype Result<+T, +E> = Success(value: T) | Failure(error: E) {
    predicate IsFailure() { Failure? }

    function PropagateFailure<U>(): Result<U, E>
      requires Failure?
    {
      Failure(error)
    }

    function Extract(): T
      requires Success?
    {
      value
    }
  }
}
