/** Option and Result: Java's nullable references and thrown exceptions, as values. */
module Wrappers {

  /** A Java reference that may be null. */
  datatype Option<T> = None | Some(value: T)

  /** A call that either returns a value or throws an exception. */
  datatype Result<T, E> = Ok(value: T) | Err(error: E)
}
