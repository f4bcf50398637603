/** The absent-or-present value used for optional results. */
module Wrappers {
  datatype Option<+T> = None | Some(value: T)
}
