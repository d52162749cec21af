/** Java's nullable references, as a value. */
module Wrappers {

  /** `None` stands for a Java `null`, `Some(v)` for a reference to `v`. */
  datatype Option<+T> = None | Some(value: T)
}
