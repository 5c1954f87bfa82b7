/** The optional value used wherever the viewer either finds something or raises. */
module Wrappers {
  datatype Option<+T> = None | Some(value: T)
}
