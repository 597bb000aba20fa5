/** The optional value returned where the pipeline returns None. */
module Wrappers {

  datatype Option<+T> = None | Some(value: T)

}
