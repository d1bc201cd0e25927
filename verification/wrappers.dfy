/** The optional value used where a generated member may be absent. */
module Wrappers {
  datatype Option<+T> = None | Some(value: T)
}
