/** The optional value used for Python's `Optional[...]` fields. */
module Wrappers {
  datatype Option<+T> = None | Some(value: T)
}
