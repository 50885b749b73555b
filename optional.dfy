/** Absence and failure as values: the parser never raises, it returns None. */
module Optional {

  datatype Option<+T> = None | Some(value: T)

  /** The outcome of an operation that can raise an exception carrying a message. */
  datatype Result<+T> = Ok(value: T) | Err(message: string)
}
