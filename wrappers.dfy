/** Option: a value that may be absent (a missing JSON field, a failed lookup). */
module Wrappers {

  datatype Option<+T> = None | Some(value: T) {

    /** The wrapped value, or `default` when there is none. */
    function GetOr(default: T): T {
      match this
      case Some(v) => v
      case None => default
    }
  }

  /** JavaScript's `s || ''` on an optional string: a missing string reads as empty. */
  function OrEmpty(s: Option<string>): string {
    s.GetOr("")
  }
}
