/** Failure-carrying values shared by the order modules: `Option` for a
    lookup that may find nothing, `Result` for an operation that may fail. */
module Wrappers {

  datatype Option<+T> = None | Some(value: T)

  datatype Result<+T, +E> = Ok(value: T) | Err(error: E)
}
