/** Rust's `Option`, used for the optional fields of a game record. */
module Wrappers {
  datatype Option<+T> = None | Some(value: T)
}
