// The usual optional value; it stands for the source's nil values and nil errors.
module Wrappers {
  datatype Option<+T> = None | Some(value: T)
}
