/** Small helper datatypes shared by the screen models. */
module Wrappers {

  /** A value that may be absent, as a JavaScript object field that has not been set yet. */
  datatype Option<+T> = None | Some(value: T)
}
