/** Optional values and success/failure results, used wherever the source
    has `undefined`/`null` or throws an `Error`. */
module Wrappers {

  datatype Option<+T> = None | Some(value: T) {
    function GetOr(default: T): T {
      match this
      case Some(v) => v
      case None => default
    }
  }

  /** `Failure(message)` stands for a thrown `Error` whose `message` is given. */
  datatype Result<+T> = Success(value: T) | Failure(message: string)
}
