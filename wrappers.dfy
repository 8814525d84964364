/** The usual Some/None datatype, used for JavaScript's nullable and optional values. */
module Wrappers {

  datatype Option<+T> = None | Some(value: T)
}
