/** The optional value used for nullable fields and failed parses. */
module Wrappers {

  datatype Option<+T> = None | Some(value: T)
}
