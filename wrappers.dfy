/** The optional value used for lookups and for the outcome of parsing a callback body. */
module Wrappers {

  datatype Option<+T> = None | Some(value: T)
}
