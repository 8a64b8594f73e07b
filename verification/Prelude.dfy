/** Small datatypes shared by the models. */
module Prelude {

  datatype Option<+T> = None | Some(value: T)

  /** The outcome of a call that the source reports with an error value. */
  datatype Result<+T, +E> = Ok(value: T) | Err(error: E)
}
