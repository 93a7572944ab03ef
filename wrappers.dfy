/** The optional value a raycast produces: a hit, or nothing in range. */
module Wrappers {

  datatype Option<+T> = None | Some(value: T)
}
