/** Option and Result, the model's stand-ins for std::optional and
    std::expected<T, std::string> (include/tramogi/core/errors.h). */
module Wrappers {

  datatype Option<+T> = None | Some(value: T)

  /** An error carries the message string the source returns. */
  datatype Result<+T> = Ok(value: T) | Err(error: string) {
    predicate IsFailure() { Err? }
  }
}
