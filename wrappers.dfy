/** Plain `Option` and `Result` datatypes shared by every stage of the model. */
module Wrappers {

  /** A value that may be missing: pandas' NaN after a failed lookup, Python's None. */
  datatype Option<+T> = None | Some(value: T)

  /** Either a value or the error the original code would raise. */
  datatype Result<+T, +E> = Ok(value: T) | Err(error: E)
}
