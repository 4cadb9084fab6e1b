/** The optional-value datatype used for a node's parent and a mesh's material. */
module Wrappers {
  datatype Option<+T> = None | Some(value: T)
}
