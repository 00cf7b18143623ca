/** The optional value used for JavaScript properties that may be absent (`undefined`). */
module Wrappers {

  datatype Option<+T> = None | Some(value: T)

}
