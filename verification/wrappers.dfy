/**
 * A value that may be missing: an absent field of a person record, an empty
 * bucket of the layer grouping, a lookup that finds nothing.
 */
module Wrappers {
  datatype Option<T> = None | Some(value: T)
}
