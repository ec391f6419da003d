/** Failure-carrying values shared by every module of the model. The Python code returns
    `Ok(..)`/`Err(..)` values of the `result` package; `Result` below is that type. */
module Wrappers {

  datatype Option<+T> = None | Some(value: T)

  datatype Result<+T, +E> = Ok(value: T) | Err(error: E)
}
