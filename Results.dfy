/** Failure-carrying return values used where the Java code throws or reports failure. */
module Results {

  /** A value that may be absent (a Java reference that may be `null`). */
  datatype Option<+T> = None | Some(value: T)

  /** Either a produced value or the error the Java code would have thrown. */
  datatype Result<+T, +E> = Success(value: T) | Failure(error: E)

  /** Completion of an operation that produces no value, or the error it raised. */
  datatype Outcome<+E> = Pass | Fail(error: E)
}
