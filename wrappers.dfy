/** Small failure-compatible wrapper shared by every module. */
module Wrappers {

  /** A value that may be absent: the model of a C# reference or nullable that may be null. */
  datatype Option<+T> = None | Some(value: T) {

    /** The value, or `default` when absent (the C# `??` operator). */
    function GetOr(default: T): T {
      match this
      case Some(v) => v
      case None => default
    }
  }
}
