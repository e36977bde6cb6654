/** The optional value used for Python's `None` defaults and for readers that can fail. */
module Wrappers {
  datatype Option<+T> = None | Some(value: T)
}
