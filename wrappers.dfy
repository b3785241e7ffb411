/** Option and Result values used throughout the model. */
module Wrappers {

  /** A value that may be absent: a missing request field, a `findOne` that matched nothing. */
  datatype Option<+T> = None | Some(value: T)

  /** The outcome of a call into the document store: a value, or a rejected promise. */
  datatype Result<+T> = Ok(value: T) | Failed
}
