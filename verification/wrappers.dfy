/** A value that may be missing: JavaScript's `undefined`/`null` or a lookup that found nothing. */
module Wrappers {

  datatype Option<+T> = None | Some(value: T)
}
