/** The optional value a lookup returns: `None` where the source returns a nil pointer. */
module Wrappers {

  datatype Option<+T> = None | Some(value: T)
}
