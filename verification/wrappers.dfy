/** Option and Result datatypes used throughout the model. A JavaScript value
    that may be `undefined` becomes an `Option`; a Node-style callback
    `(err, value)` becomes a `Result`. */
module Wrappers {

  datatype Option<+T> = None | Some(value: T) {

    /** The wrapped value, or `default` when there is none. */
    function GetOr(default: T): T {
      match this
      case Some(v) => v
      case None => default
    }
  }

  /** `Ok(v)` is a callback invoked as `callback(null, v)`;
      `Err(e)` is one invoked as `callback(e)`. */
  datatype Result<+R, +E> = Ok(value: R) | Err(error: E)
}
