/** The absent-or-present value that the Python code spells `None` / a value. */
module Wrappers {
  datatype Option<+T> = None | Some(value: T)
}
