/** Option and Result values shared by the models of the lightbox and the filter. */
module Wrappers {

  /** An optional value: `None` stands for JavaScript's `undefined`/`null`/`false` placeholders. */
  datatype Option<+T> = None | Some(value: T)

  /** The outcome of an operation that may throw. */
  datatype Result<+T, +E> = Success(value: T) | Failure(error: E)
}
