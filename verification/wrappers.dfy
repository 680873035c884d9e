/** The optional-value type shared by the other modules. */
module Wrappers {

  /** A value that may be absent: a JavaScript `undefined` field, a missing key, a null state. */
  datatype Option<+T> = None | Some(value: T)
}
