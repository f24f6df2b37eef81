/** Optional values: a Unity reference that may be unassigned, an absent day source. */
module Wrappers {
  datatype Option<+T> = None | Some(value: T)
}
