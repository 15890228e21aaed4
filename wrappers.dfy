/** A value that may be missing: a document that is not in the store, an
    update that carries no message. */
module Wrappers {

  datatype Option<+T> = None | Some(value: T)
}
