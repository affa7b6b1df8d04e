/** A present-or-absent value: JavaScript's `undefined`/`null` versus a value. */
module Options {

  datatype Option<+T> = None | Some(value: T) {

    /** The value if present, else the given default (JavaScript's `??`). */
    function GetOr(default: T): T {
      match this
      case Some(v) => v
      case None => default
    }
  }
}
