/** Failure-carrying values that stand for the exceptions Python raises. */
module Results {

  datatype Option<T> = None | Some(value: T)

  datatype Result<T, E> = Success(value: T) | Failure(error: E)

  /** Completion of a procedure that returns nothing on success (Python's `-> None`). */
  datatype Outcome<E> = Pass | Fail(error: E)

}
