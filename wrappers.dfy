/** An optional value: the self text that may be absent, or the request a call may send. */
module Wrappers {
  datatype Option<+T> = None | Some(value: T)
}
