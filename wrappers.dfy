/** An optional value: an answer to a prompt that may not have been asked. */
module Wrappers {

  datatype Option<+T> = None | Some(value: T)

}
