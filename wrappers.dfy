/** The optional value used wherever the bot's code returns `None` for "absent". */
module Wrappers {

  datatype Option<+T> = None | Some(value: T)
}
