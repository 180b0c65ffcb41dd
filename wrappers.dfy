/** The optional value used throughout the model for "absent" results. */
module Wrappers {

  datatype Option<+T> = None | Some(value: T)
}
