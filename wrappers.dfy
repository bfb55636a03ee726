/** A value that may be absent: a JSON field that was not sent (or was null),
    or a key missing from a lookup table. */
module Wrappers {

  datatype Option<+T> = None | Some(value: T)
}
