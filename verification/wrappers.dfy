/** Optional values: `None` stands for a JavaScript value that is absent
    (`undefined`), or for a library call that failed. */
module Wrappers {

  datatype Option<+T> = None | Some(value: T)
}
