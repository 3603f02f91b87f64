/** `Option` and `Result` datatypes shared by the other modules. */
module Optional {

  /** A value that may be absent; stands for a nil Go interface or pointer. */
  datatype Option<+T> = None | Some(value: T)

  /** The outcome of a Go function returning `(T, error)`: a value, or the error's message. */
  datatype Result<+T> = Ok(value: T) | Failure(error: string)
}
