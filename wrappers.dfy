/** The usual optional-value datatype, used for decoders, dialogs and stored settings. */
module Wrappers {
  datatype Option<+T> = None | Some(value: T)
}
