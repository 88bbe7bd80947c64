/** The optional value used where the protocol's Python code raises on bad input. */
module Wrappers {

  datatype Option<+T> = None | Some(value: T)
}
