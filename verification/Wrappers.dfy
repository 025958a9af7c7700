/** The Some/None datatype used in place of the nullable columns and optional arguments. */
module Wrappers {
  datatype Option<+T> = None | Some(value: T)
}
