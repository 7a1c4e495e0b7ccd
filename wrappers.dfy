/** The conventional optional-value datatype, used for a stored preference that
    may be absent and for a round that may or may not be scheduled. */
module Wrappers {

  datatype Option<+T> = None | Some(value: T)
}
