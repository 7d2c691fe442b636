/** The conventional optional value, standing in for a nullable pointer. */
module Wrappers {
  datatype Option<+T> = None | Some(value: T)
}
