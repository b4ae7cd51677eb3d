/** The optional value used wherever the bot may have nothing to return. */
module Wrappers {
  datatype Option<+T> = None | Some(value: T)
}
