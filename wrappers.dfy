/** The optional value used for Java's Optional, JavaScript's `undefined`
    results and nullable references. */
module Wrappers {

  datatype Option<+T> = None | Some(value: T)

}
