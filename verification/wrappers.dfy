/** Option, used for the values C# leaves nullable (`string?`, a reference that may be null). */
module Wrappers {

  datatype Option<+T> = None | Some(value: T) {

    /** The `??` operator: the value, or `default` when there is none. */
    function GetOr(default: T): T {
      match this
      case Some(v) => v
      case None => default
    }
  }
}
