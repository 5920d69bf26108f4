/** Optional values: `None` stands for the Java `null` a caller can receive. */
module Wrappers {

  datatype Option<+T> = None | Some(value: T)
}
