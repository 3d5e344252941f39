/** Small result types shared by every module of the model. */
module Wrappers {

  /** A value that may be absent; `None` stands for JavaScript's `undefined` or `null` result. */
  datatype Option<+T> = None | Some(value: T) {
    function GetOr(default: T): T {
      match this
      case Some(v) => v
      case None => default
    }
  }

  /** The outcome of a JavaScript operation that either completes with a value or throws an error
      carrying a message. */
  datatype Outcome<+T> = Ok(value: T) | Throws(message: string)
}
