/** The Option datatype the model uses for map lookups that may find nothing
    (where Java's Map.get answers null) and for a hook's possible failure. */
module Wrappers {

  datatype Option<+T> = None | Some(value: T)
}
