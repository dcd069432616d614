/** The Some/None datatype used where the decompiler works with a reference that may be null. */
module Wrappers {
  datatype Option<+T> = None | Some(value: T)
}
