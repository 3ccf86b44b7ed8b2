/** The optional value used throughout the model: `None` stands for JavaScript's
    `null` or `undefined`, depending on the field it replaces. */
module Wrappers {
  datatype Option<+T> = None | Some(value: T)
}
