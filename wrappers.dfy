/** The optional value used for TypeScript's optional fields, `undefined`/`null` and `Array.find`. */
module Wrappers {

  datatype Option<+T> = None | Some(value: T)
}
