/** Wrapper types shared by the model. */
module Wrappers {

  /** An optional value: a lookup that may find nothing, or a property that
      may be missing. */
  datatype Option<+T> = None | Some(value: T)
}
