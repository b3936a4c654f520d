/** Java's `Optional` and nullable references, as a value. */
module Wrappers {

  datatype Option<+T> = None | Some(value: T)
}
