/** Option stands for a JavaScript number that may not be finite (isFinite). */
module Wrappers {
  datatype Option<+T> = None | Some(value: T)
}
