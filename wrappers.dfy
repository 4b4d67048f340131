/** The optional value a scale-up calculation returns: `None` is the
    "invalid method" outcome, `Some(x)` a computed result. */
module Wrappers {
  datatype Option<+T> = None | Some(value: T)
}
