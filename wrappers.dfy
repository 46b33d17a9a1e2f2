/** The optional value used wherever the instrumented code passes a nullable value. */
module Wrappers {

  datatype Option<+T> = None | Some(value: T) {

    /** The value when there is one, `default` otherwise (PHP's `??`). */
    function GetOr(default: T): T {
      match this
      case Some(v) => v
      case None => default
    }
  }
}
