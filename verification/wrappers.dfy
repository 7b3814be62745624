/** A small Option type, used by the inverse tables that serve as partners
    of the rendering functions. */
module Wrappers {
  datatype Option<+T> = None | Some(value: T)
}
