/** Small datatypes shared by both parts of the model. */
module Wrappers {

  /** A value that may be absent: a NULL pointer, or a store that is not made. */
  datatype Option<T> = None | Some(value: T)
}
