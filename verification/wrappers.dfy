/** A value that may be missing: the sensor readings that fail and are shown as a placeholder. */
module Wrappers {
  datatype Option<+T> = None | Some(value: T)
}
