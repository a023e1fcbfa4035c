/** The optional-value wrapper shared by the other modules: JavaScript's
    `null`/`undefined` field values become `None`. */
module Wrappers {

  datatype Option<+T> = None | Some(value: T)
}
