/** Wrappers shared by the predictor model: `Option` stands for Python's
    `Optional[...]`/`None`, `Result` for a value or a raised exception. */
module Wrappers {

  datatype Option<+T> = None | Some(value: T)

  datatype Result<+R, +E> = Success(value: R) | Failure(error: E)
}
