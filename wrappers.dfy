/** The optional value used for a cell that pandas holds as missing (NaN). */
module Wrappers {
  datatype Option<+T> = None | Some(value: T)
}
