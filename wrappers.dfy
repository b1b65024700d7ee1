/** The optional value used for empty depth-buffer cells and culled samples. */
module Wrappers {
  datatype Option<+T> = None | Some(value: T)
}
