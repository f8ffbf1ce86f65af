/** Absent-value and error-carrying results, used where the Java code returns
    `null` or dereferences one. */
module Wrappers {

  /** `None` stands for a Java `null` result that the caller must handle. */
  datatype Option<+T> = None | Some(value: T)

  /** A successful value or a typed failure, used where the Java code faults. */
  datatype Result<+R, +E> = Success(value: R) | Failure(error: E)
}
