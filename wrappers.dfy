/** Optional values: Python's `Optional[T]`, where `None` is absence. */
module Wrappers {

  datatype Option<+T> = None | Some(value: T)

}
