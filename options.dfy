/** Optional values and results with an error, used by every module of the model. */
module Options {

  /** A value that may be absent: JavaScript's `null`/`undefined` next to a value. */
  datatype Option<+T> = None | Some(value: T)

  /** The outcome of a validation: the accepted value, or the messages that rejected it. */
  datatype Result<+T, +E> = Ok(value: T) | Err(error: E)
}
