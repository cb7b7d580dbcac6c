/** `Option` stands in for a Java reference that may be `null`,
    `Result` for an operation that may throw. */
module Wrappers {

  /** `None` plays the role of Java's `null`. */
  datatype Option<+T> = None | Some(value: T)

  /** `Failure` plays the role of an exception escaping an event handler. */
  datatype Result<+R, +E> = Success(value: R) | Failure(error: E)
}
