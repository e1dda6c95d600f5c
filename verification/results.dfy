/** A value-or-error datatype, used for the writer's error path: the source
    raises `IndexError` when a polygon names a loop or a colour entry that does
    not exist, and the model returns that as a `Failure`. */
module Results {

  datatype Result<+T, +E> = Success(value: T) | Failure(error: E) {

    predicate IsFailure() {
      Failure?
    }

    function PropagateFailure<U>(): Result<U, E>
      requires Failure?
    {
      Failure(error)
    }

    function Extract(): T
      requires Success?
    {
      value
    }
  }
}
