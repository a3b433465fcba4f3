/** The optional value used for "unknown" positions and failed parses. */
module Wrappers {
  datatype Option<+T> = None | Some(value: T)
}
