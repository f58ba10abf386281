/** Optional values: `None` stands for Go's nil error or a lookup that found nothing. */
module Wrappers {
  datatype Option<+T> = None | Some(value: T)
}
