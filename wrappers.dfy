/** Optional values: Python's `None` (or the `False` that a failed lookup
    returns) against a present value. */
module Wrappers {

  datatype Option<+T> = None | Some(value: T)

}
