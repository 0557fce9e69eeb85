/** The optional value used for draws that may fail and for Go's `error` results (None is nil). */
module Wrappers {
  datatype Option<+T> = None | Some(value: T)
}
