/** Optional values, used wherever the server works with `undefined`:
    a lookup that finds nothing, an unset session field. */
module Wrappers {

  datatype Option<+T> = None | Some(value: T)
}
