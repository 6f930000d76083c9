/** The JavaScript `null`/`undefined` of the game, as a value. */
module Wrappers {

  datatype Option<+T> = None | Some(value: T)
}
