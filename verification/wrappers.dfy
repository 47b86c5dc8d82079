/** An optional value: a fetched row that may be missing, a payload that may not parse. */
module Wrappers {
  datatype Option<+T> = None | Some(value: T)
}
