/** How the model writes down JavaScript's absent values and thrown errors. */
module Js {

  /** A value that may be `undefined`, or a key an object does not have. */
  datatype Option<+T> = None | Some(value: T)

  /** An evaluation that either yields a value or throws a TypeError
      (reading a property of `undefined`). */
  datatype Outcome<+T> = Ok(value: T) | Threw
}
