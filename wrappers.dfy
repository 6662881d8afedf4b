/** Small value wrappers shared by the gateway model. */
module Wrappers {

  /** A value that may be absent (Go's `nil` / a missing header). */
  datatype Option<+T> = None | Some(value: T)
}
