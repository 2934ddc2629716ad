/** The optional value used wherever the bot's JavaScript can see `undefined`. */
module Wrappers {

  datatype Option<+T> = None | Some(value: T)
}
