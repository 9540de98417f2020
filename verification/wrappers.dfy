/** Rust's `Option`, used wherever the code base carries an optional field. */
module Wrappers {

  datatype Option<+T> = None | Some(value: T)
}
