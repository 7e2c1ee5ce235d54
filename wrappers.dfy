/** Option and Result: Java's `null` and thrown exceptions, made explicit. */
module Wrappers {
  /** `None` stands for a Java `null`. */
  datatype Option<+T> = None | Some(value: T)

  /** `Failure` stands for an exception that escapes the modelled code. */
  datatype Result<+T, +E> = Success(value: T) | Failure(error: E)
}
