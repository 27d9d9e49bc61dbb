/** Small value wrappers shared by every module of the model. */
module Wrappers {

  /** A value that may be missing: Python's `None` / a lookup that found nothing. */
  datatype Option<+T> = None | Some(value: T) {
    function GetOr(default: T): T {
      match this
      case Some(v) => v
      case None => default
    }
  }

  /** A computation that either produced a value or raised an error. */
  datatype Result<+R, +E> = Success(value: R) | Failure(error: E)

  /** A key of a Python dict that the caller either supplied (with a value,
      possibly `None` itself) or left out: `'k' in data` versus not. */
  datatype KeyValue<+T> = Absent | Present(value: T) {
    /** The supplied value, or `current` when the key was left out. */
    function Or(current: T): T {
      match this
      case Present(v) => v
      case Absent => current
    }
  }
}
