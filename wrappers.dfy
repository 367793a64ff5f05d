/** Go's nil-able pointers and nil errors are modelled as optional values. */
module Wrappers {
  datatype Option<+T> = None | Some(value: T)
}
