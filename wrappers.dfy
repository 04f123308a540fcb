/** The optional-value datatype used across the model for JavaScript's
    "maybe absent" results (`undefined`, `null`, a missing argument). */
module Wrappers {

  datatype Option<+T> = None | Some(value: T)
}
