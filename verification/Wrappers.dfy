/** The result types shared by the components. */
module Wrappers {
  datatype Option<+T> = None | Some(value: T)
}
