/** Option and Result types standing in for Java's nullable references,
    Guava's `Optional` and thrown exceptions. */
module Wrappers {

  /** A value that may be absent: Guava's `Optional`, or a nullable field. */
  datatype Option<+T> = None | Some(value: T) {

    /** The wrapped value, or `default` when absent (Guava's `or`). */
    function Or(default: T): T {
      match this
      case Some(v) => v
      case None => default
    }
  }

  /** The outcome of an operation that may throw instead of returning. */
  datatype Result<+R, +E> = Success(value: R) | Failure(error: E)
}
