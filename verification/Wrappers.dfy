/** The optional value used wherever the Python code writes `X | None`. */
module Wrappers {
  datatype Option<+T> = None | Some(value: T)
}
