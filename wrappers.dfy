/** Small wrappers used across the model. */
module Wrappers {

  /** `std::optional<T>`: either empty or holding a value. */
  datatype Option<+T> = None | Some(value: T) {
    /** `value_or(d)` */
    function GetOr(d: T): T {
      match this
      case Some(v) => v
      case None => d
    }
  }

  /** Errors that the modelled operations can raise. */
  datatype Error = OutOfRange

  /** An operation that either completes or throws one of the errors above. */
  datatype Outcome = Pass | Fail(error: Error)
}
