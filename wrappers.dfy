/** Small value wrappers shared by the modules of the model. */
module Wrappers {

  /** A value that may be absent: JavaScript's `null` for an object slot. */
  datatype Option<+T> = None | Some(value: T)
}
