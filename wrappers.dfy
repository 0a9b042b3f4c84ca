/** Optional values and results with an error, used where the application
    relies on `undefined`/`null` fields or on a thrown error. */
module Wrappers {

  datatype Option<+T> = None | Some(value: T) {
    /** `value ?? fallback`: the value when present, the fallback otherwise. */
    function GetOr(fallback: T): T
    {
      match this
      case Some(v) => v
      case None => fallback
    }
  }

  datatype Result<+T, +E> = Success(value: T) | Failure(error: E)
}
