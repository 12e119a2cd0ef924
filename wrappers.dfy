/** Small helper datatypes shared by the other modules. */
module Wrappers {

  /** A value that may be absent; stands for Python's `None`. */
  datatype Option<+T> = None | Some(value: T)
}
