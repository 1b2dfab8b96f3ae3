/** The optional value used for nullable slots of the front end (`null` in TypeScript). */
module Wrappers {

  datatype Option<+T> = None | Some(value: T)
}
