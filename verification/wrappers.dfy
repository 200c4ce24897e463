/** A Java reference that may be null is an Option: None stands for null. */
module Wrappers {

  datatype Option<+T> = None | Some(value: T)
}
