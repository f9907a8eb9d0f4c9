/** The standard optional-value datatype used for JavaScript values that may be
    `undefined`/`null`, and for operations that raise instead of returning. */
module Wrappers {

  datatype Option<+T> = None | Some(value: T) {

    /** The contained value, or `default` when there is none. */
    function GetOr(default: T): T {
      match this
      case Some(v) => v
      case None => default
    }
  }
}
