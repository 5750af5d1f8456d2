/** The optional value shared by the codec, the streams and the timer (Rust's `Option`). */
module Wrappers {
  datatype Option<+T> = None | Some(value: T)
}
