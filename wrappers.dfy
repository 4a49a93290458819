/** The optional value used for PHP's nullable types. */
module Wrappers {

  datatype Option<+T> = None | Some(value: T) {

    /** PHP's `$x ?? $default`: the value when present, otherwise the default. */
    function GetOr(default: T): T
    {
      match this
      case Some(v) => v
      case None => default
    }
  }
}
