/** Option and Result wrappers, and the errors the fee engine can raise. */
module Wrappers {

  datatype Option<+T> = None | Some(value: T) {
    /** The wrapped value, or `default` when there is none. */
    function GetOr(default: T): T {
      match this
      case Some(v) => v
      case None => default
    }
  }

  /** The exceptions the engine raises, one constructor per kind. */
  datatype Error =
    | UnrecognisedType(tag: string)   // RuntimeError from a proxy lookup
    | NotImplemented(what: string)    // NotImplementedError
    | Validation(message: string)     // django ValidationError from clean()
    | TypeError(message: string)      // arithmetic or conversion on a None value
    | AttributeError(message: string) // an attribute read on None

  /** A value, or the exception that was raised instead. */
  datatype Result<+T> = Ok(value: T) | Err(error: Error)
}
