/** Kotlin's nullable values. */
module Wrappers {

  /** Kotlin's nullable `T?`. */
  datatype Option<+T> = None | Some(value: T) {
    /** `x ?: default` */
    function GetOr(default: T): T {
      match this
      case Some(v) => v
      case None => default
    }
  }

  /** How a string template renders a nullable string: null becomes "null". */
  function Render(s: Option<string>): string {
    s.GetOr("null")
  }
}
