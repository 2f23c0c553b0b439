/** Small wrappers shared by the other modules. */
module Wrappers {

  /** Python's `None` versus a value. */
  datatype Option<+T> = None | Some(value: T) {

    /** The value, or `default` when this is None (Python's `x if x is not None else default`). */
    function GetOr(default: T): T {
      match this
      case Some(v) => v
      case None => default
    }
  }

  /** A call that either returns a value or raises an error. */
  datatype Result<+R, +E> = Success(value: R) | Failure(error: E)

  /** An attribute of a Python object: either the object has no such attribute
      (`hasattr` answers False), or it has one, holding `value`. */
  datatype Field<+T> = Absent | Present(value: T)
}
