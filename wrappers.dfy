/** Option and call-outcome wrappers shared by the model. */
module Wrappers {

  /** A value that may be absent (`null` or `undefined` in the source). */
  datatype Option<+T> = None | Some(value: T) {
    function GetOr(default: T): T {
      match this
      case Some(v) => v
      case None => default
    }
  }

  /** How an async store action ends: it returns a value, or its promise rejects with a message. */
  datatype Outcome<+T> = Returned(value: T) | Rejected(message: string)
}
