/** Option and Result, used for PHP's nullable values and for exceptions
    that the modelled code raises instead of returning. */
module Wrappers {

  datatype Option<+T> = None | Some(value: T) {
    /** `$x ?? $default` */
    function GetOr(default: T): T {
      match this
      case Some(v) => v
      case None => default
    }
  }

  datatype Result<+R, +E> = Success(value: R) | Failure(error: E)
}
