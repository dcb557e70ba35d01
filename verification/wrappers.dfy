/** Optional values: Java's nullable references (`@Nullable`) become `Option`. */
module Wrappers {
  datatype Option<+T> = None | Some(value: T)
}
