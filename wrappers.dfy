/** Optional values: the outcome of parsing the amount field, and the
    transaction the editor is bound to (none while adding). */
module Wrappers {

  datatype Option<+T> = None | Some(value: T)
}
