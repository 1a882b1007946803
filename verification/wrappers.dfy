/** Optional values and failure-carrying results, used wherever the
    TypeScript code works with `undefined`, `null` or a caught exception. */
module Wrappers {

  /** `None` stands for `undefined` / `null`, `Some(v)` for a present value. */
  datatype Option<+T> = None | Some(value: T) {

    /** The value, or `default` when it is absent (the `??` operator). */
    function GetOr(default: T): T {
      match this
      case Some(v) => v
      case None => default
    }
  }

  /** Either a value or an error, for operations whose outcome can fail. */
  datatype Result<+R, +E> = Success(value: R) | Failure(error: E)
}
