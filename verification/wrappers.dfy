/** The optional-value datatype used for camera properties that may be absent. */
module Wrappers {

  /** A value that is either absent (None) or present (Some). */
  datatype Option<+T> = None | Some(value: T)
}
