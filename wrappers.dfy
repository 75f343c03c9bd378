/** Stock result wrappers shared by the whole model. */
module Wrappers {

  /** A value or a null reference. */
  datatype Option<+T> = None | Some(value: T)

  /** How a call of the client ends: with a value, or with an exception nobody catches. */
  datatype Outcome<+T> = Returned(value: T) | Threw
}
