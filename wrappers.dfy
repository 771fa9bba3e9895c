/** The optional value used wherever the bot stores `None` or looks up a key that may be absent. */
module Wrappers {
  datatype Option<+T> = None | Some(value: T)
}
