/** Swift's `Optional`, used for the nullable values crossing the native boundary. */
module Wrappers {

  /** `nil` (None) or a wrapped value (Some). */
  datatype Option<+T> = None | Some(value: T)
}
