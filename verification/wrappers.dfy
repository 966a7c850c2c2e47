/** Nullable values and refusable results used across the model: an
    optional value for nullable columns and missing rows, and a result for
    operations whose database write can be refused. */
module Wrappers {

  /** A nullable value: `None` plays the role of SQL NULL / Python `None`. */
  datatype Option<+T> = None | Some(value: T)

  /** The outcome of an operation that either succeeds with a value or is
      refused with an error. */
  datatype Result<+T, +E> = Ok(value: T) | Err(error: E)
}
