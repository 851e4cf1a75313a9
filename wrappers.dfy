/** The conventional optional value, standing for a JavaScript `find` that
    returns an element or `undefined`, and a lookup that returns a record or `null`. */
module Wrappers {
  datatype Option<+T> = None | Some(value: T)
}
