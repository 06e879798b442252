/** The optional value used for the login form's nullable error message. */
module Wrappers {
  datatype Option<+T> = None | Some(value: T)
}
