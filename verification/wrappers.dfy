/** The optional value used wherever the application has a nullable value or an early return. */
module Wrappers {

  datatype Option<+T> = None | Some(value: T)
}
