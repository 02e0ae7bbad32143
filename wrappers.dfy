/** The optional value used for empty squares, the selection and the pending promotion. */
module Wrappers {
  datatype Option<+T> = None | Some(value: T)
}
