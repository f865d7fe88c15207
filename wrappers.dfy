/** Option and Result, the failure-carrying wrappers the rest of the model uses
    for a thrown exception or a missing (null) value. */
module Wrappers {

  datatype Option<+T> = None | Some(value: T)

  datatype Result<+T, +E> = Ok(value: T) | Err(error: E)
}
