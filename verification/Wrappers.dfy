/** Optional values: JavaScript's `null`/`undefined` where the modelled code only
    distinguishes "present" from "absent". */
module Wrappers {

  datatype Option<+T> = None | Some(value: T)
}
