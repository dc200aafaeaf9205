/** The optional value used for Rust's `Option` throughout the model. */
module Wrappers {
  datatype Option<+T> = None | Some(value: T)
}
