/** An optional value, shared by the other modules. */
module Wrappers {

  /** A value that may be absent: `undefined` in the system's own terms. */
  datatype Option<+T> = None | Some(value: T)
}
