/** Optional values (Python's None) and validation results (a cleaned value or
    the message of a ValidationError). */
module Wrappers {

  datatype Option<+T> = None | Some(value: T) {
    /** The value, or the given fallback when there is none. */
    function GetOr(fallback: T): (r: T)
      ensures Some? ==> r == value
      ensures None? ==> r == fallback
    {
      match this
      case Some(v) => v
      case None => fallback
    }
  }

  datatype Result<+R, +E> = Success(value: R) | Failure(error: E)
}
