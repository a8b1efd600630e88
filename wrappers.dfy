/** The optional value used for the nullable parts of an error payload. */
module Wrappers {

  datatype Option<+T> = None | Some(value: T)
}
