/** The optional value used where the source has a missing row, a null column or an error return. */
module Wrappers {
  datatype Option<+T> = None | Some(value: T)
}
