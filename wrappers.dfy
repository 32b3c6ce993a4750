/** Failure-carrying results shared by every module of the model. */
module Wrappers {

  datatype Option<+T> = None | Some(value: T)

  /** A value, or the message of the Error the source would throw. */
  datatype Result<+T> = Ok(value: T) | Err(msg: string)

  /** Completion of an async step: it resolved, or it rejected with a message. */
  datatype Outcome = Pass | Fail(msg: string)

  /** Template-literal interpolation of a possibly-undefined string: `${x}`. */
  function Interp(x: Option<string>): string
  {
    match x
    case Some(s) => s
    case None => "undefined"
  }

  /** JavaScript truthiness of a possibly-undefined string. */
  predicate Truthy(x: Option<string>)
  {
    x.Some? && x.value != ""
  }
}
