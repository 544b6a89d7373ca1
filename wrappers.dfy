/** Option type for the source's nullptr paths. */
module Wrappers {

  datatype Option<+T> = None | Some(value: T)
}
