/** The optional value used throughout the model for JavaScript `undefined`/`null`
    and for PHP's unset array entries. */
module Wrappers {

  datatype Option<+T> = None | Some(value: T) {

    function GetOr(default: T): T
    {
      match this
      case Some(v) => v
      case None => default
    }
  }
}
