/** The optional value used for partial operations (a parser that may reject its input). */
module Wrappers {

  datatype Option<+T> = None | Some(value: T)
}
