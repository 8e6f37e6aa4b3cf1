/** The optional value used wherever the engine may hand back no object, or a lookup may miss. */
module Wrappers {

  datatype Option<+T> = None | Some(value: T)

}
