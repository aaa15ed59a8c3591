/** The optional value used wherever the source looks up something that may
    be missing (a DOM element, a parsed number). */
module Wrappers {

  datatype Option<+T> = None | Some(value: T)
}
