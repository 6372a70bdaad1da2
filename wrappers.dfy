/** Small helper datatypes shared by the other modules. */
module Wrappers {

  /** An optional value; `None` stands for Go's nil where the source allows one. */
  datatype Option<+T> = None | Some(value: T)
}
