/** The optional-value idiom used throughout the model: `None` stands for a
    JavaScript `undefined` (a missing token, a missing argument, a missing
    property) or for an absent list. */
module Wrappers {
  datatype Option<+T> = None | Some(value: T)
}
