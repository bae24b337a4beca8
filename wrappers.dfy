/** An optional value, for outputs that a call may leave unwritten. */
module Wrappers {

  datatype Option<+T> = None | Some(value: T)
}
