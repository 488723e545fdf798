/** Option type used for the once-only completion stamp. */
module Wrappers {
  datatype Option<+T> = None | Some(value: T)
}
