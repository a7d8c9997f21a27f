/** The optional value used wherever the TypeScript code reads something that may be
    `undefined` or `null` (an optional parameter, a missing JSON field, an absent storage key). */
module Wrappers {

  datatype Option<+T> = None | Some(value: T) {

    /** The value, or `default` when absent (the `??` operator). */
    function GetOr(default: T): T {
      match this
      case Some(v) => v
      case None => default
    }
  }
}
