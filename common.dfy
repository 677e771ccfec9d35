/** Shared helper types for all modules of the model. */
module Common {

  /** A Java reference that may be `null`. */
  datatype Option<T> = None | Some(value: T)

  /** Outcome of a command step that the Java code may abort with an exception. */
  datatype Outcome<E> = Pass | Fail(error: E)
}
