/** The optional-value datatype used for the metrics provider and for results
    that a rejected promise never produces. */
module Wrappers {

  datatype Option<+T> = None | Some(value: T)
}
