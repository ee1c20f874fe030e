/** Optional values, used for payloads that may fail to decode and for parses that may fail. */
module Wrappers {
  datatype Option<+T> = None | Some(value: T)
}
