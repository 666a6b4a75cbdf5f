/** The optional value used for the parser's "no command" answer. */
module Wrappers {

  datatype Option<+T> = None | Some(value: T)
}
