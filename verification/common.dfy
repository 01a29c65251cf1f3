/** Small value wrappers shared by the rest of the model. */
module Common {

  /** A value that may be absent (a JavaScript property that is not set). */
  datatype Option<+T> = None | Some(value: T)

  /** The outcome of an operation that can throw: `Err` carries the message of the thrown `Error`. */
  datatype Result<+T> = Ok(value: T) | Err(error: string)
}
