/** Option, Result and Outcome: the model's counterparts of `std::optional`,
    `tl::expected<T, E>` and `tl::expected<void, E>` (or a thrown exception). */
module Wrappers {

  datatype Option<+T> = None | Some(value: T)

  datatype Result<+T, +E> = Success(value: T) | Failure(error: E)

  /** The outcome of an operation that produces no value: `tl::expected<void, E>`. */
  datatype Outcome<+E> = Pass | Fail(error: E)
}
