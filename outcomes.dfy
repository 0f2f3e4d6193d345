/** Option and Result values: a missing lookup, and a service call that either
    returns a value or fails with the message the service throws. */
module Outcomes {

  datatype Option<+T> = None | Some(value: T) {
    /** `value ?? default`: the value when present. */
    function GetOr(default: T): T
    {
      match this
      case Some(v) => v
      case None => default
    }
  }

  /** `Fail(message)` stands for `throw new Error(message)` in the services. */
  datatype Result<+T> = Ok(value: T) | Fail(message: string)
}
