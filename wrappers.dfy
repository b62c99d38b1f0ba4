/** The optional-value wrapper shared by the other modules. */
module Wrappers {

  /** A value that may be absent, as JavaScript's `undefined` makes a property absent. */
  datatype Option<+T> = None | Some(value: T)
}
