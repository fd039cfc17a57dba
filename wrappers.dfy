/** The optional-value wrapper used for every field a protocol row may lack. */
module Wrappers {

  /** `None` stands for a field that is `undefined` on the row. */
  datatype Option<+T> = None | Some(value: T)
}
