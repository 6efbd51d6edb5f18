/** Vocabulary shared by every module of the model. */
module Common {

  datatype Option<+T> = None | Some(value: T)

  datatype Result<+T, +E> = Ok(value: T) | Err(error: E)

  /** The answer of a durable write: it is all-or-nothing. */
  datatype WriteOutcome = Written | NotWritten
}
