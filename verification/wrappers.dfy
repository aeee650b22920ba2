/** The optional-value datatype used for the owned fixed-point triple. */
module Wrappers {

  /** `None` stands for a null `int*`, `Some(v)` for an owned allocation holding `v`. */
  datatype Option<+T> = None | Some(value: T)
}
