/** Optional values, shared by the page models. */
module Wrappers {

  /** A value that may be absent: JavaScript's `undefined`/`null`, or "no match". */
  datatype Option<+T> = None | Some(value: T)
}
