/** Failure-carrying return types used in place of Java's null returns and
    IllegalArgumentException throws. */
module Wrappers {

  /** A value that may be absent (a Java reference that may be null). */
  datatype Option<+T> = None | Some(value: T)

  /** Either a value or the error a Java method would have thrown. */
  datatype Result<+R, +E> = Success(value: R) | Failure(error: E)
}
