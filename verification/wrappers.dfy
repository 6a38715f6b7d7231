/** The optional value used wherever the bot reads something that may be absent:
    a nil slice, a missing command, a failed parse or a failed store query. */
module Wrappers {

  datatype Option<+T> = None | Some(value: T)
}
