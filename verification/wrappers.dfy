/** An optional value, standing for the source's nullable references. */
module Wrappers {
  datatype Option<+T> = None | Some(value: T)
}

/** The result of an operation that can raise a Lox runtime error. */
module Errors {
  import opened Tokens

  datatype Result<+T> = Success(value: T) | Failure(error: RuntimeError)
}
