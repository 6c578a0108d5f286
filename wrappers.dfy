/** Option and Result values standing for Java's nullable references and thrown exceptions. */
module Wrappers {

  /** A nullable reference: `None` is Java's `null`. */
  datatype Option<+T> = None | Some(value: T)

  /** The outcome of a step that either yields a value or throws an exception carrying a message. */
  datatype Result<+T> = Success(value: T) | Failure(error: string)
}
