/** An optional value, shared by the other modules. */
module Wrappers {
  /** An optional value: `None` stands for JavaScript's `undefined`. */
  datatype Option<+T> = None | Some(value: T)
}
