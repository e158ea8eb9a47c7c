/** The optional values the bot passes around in place of Python's `None`. */
module Wrappers {

  datatype Option<+T> = None | Some(value: T)
}
