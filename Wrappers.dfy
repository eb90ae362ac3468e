/** Optional values (the source's nullable references) and error returns. */
module Wrappers {

  /** A nullable value: `None` stands for C#'s `null`. */
  datatype Option<+T> = None | Some(value: T)

  /** The outcome of an operation that may fail with an error of type `E`. */
  datatype Result<+T, +E> = Ok(value: T) | Err(error: E)
}
