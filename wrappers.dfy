/** The optional value used for the driver's optional hooks and for the
    scissor argument that is passed only when enabled. */
module Wrappers {

  datatype Option<+T> = None | Some(value: T)

}
