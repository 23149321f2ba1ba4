/** The optional value used wherever the driver holds "a value or undefined". */
module Wrappers {
  datatype Option<+T> = None | Some(value: T)
}
