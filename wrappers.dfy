/** Option and Result, the two failure-carrying shapes the model uses. */
module Wrappers {

  datatype Option<+T> = None | Some(value: T)

  /** `Failure` stands for a Rust `panic!`: a programming error the caller never recovers from. */
  datatype Result<+T, +E> = Success(value: T) | Failure(error: E)
}
