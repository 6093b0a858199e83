/** An optional value: the model's stand-in for Go's `(value, err)` pairs. */
module Wrappers {
  datatype Option<+T> = None | Some(value: T)
}
