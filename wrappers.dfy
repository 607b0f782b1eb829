/** Optional values and results, standing in for Java's nullable references and thrown exceptions. */
module Wrappers {

  /** `None` stands for a Java `null`. */
  datatype Option<+T> = None | Some(value: T)

  /** `Failure` stands for an exception leaving the modelled call. */
  datatype Result<+T, +E> = Success(value: T) | Failure(error: E)
}
