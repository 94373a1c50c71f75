/** Optional values and results shared by every module of the model. */
module Wrappers {

  /** `None` stands for JavaScript's `undefined`/`null` or Python's `None`. */
  datatype Option<+T> = None | Some(value: T) {
    function GetOr(default: T): T {
      match this
      case Some(v) => v
      case None => default
    }
  }

  /** A value or the error the source would have thrown or returned instead. */
  datatype Result<+R, +E> = Success(value: R) | Failure(error: E)
}
