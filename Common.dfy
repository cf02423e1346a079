/** Result and option types shared by the modules of the model. */
module Common {

  /** A value that may be absent: JavaScript `null`/`undefined` or a missing key. */
  datatype Option<T> = None | Some(value: T)

  /** The outcome of an operation that may throw: its value, or the error it throws. */
  datatype Result<T, E> = Ok(value: T) | Err(error: E)
}
