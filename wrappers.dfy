/** The optional value used for the source's `undefined`/`null` state cells and timer handles. */
module Wrappers {

  datatype Option<+T> = None | Some(value: T)
}
