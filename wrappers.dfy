/** Option, Result and the shape of one member of a JSON request body. */
module Wrappers {

  datatype Option<+T> = None | Some(value: T)

  datatype Result<+T, +E> = Ok(value: T) | Err(error: E)

  /** One key of a JSON request body: the key is missing (`undefined`),
      present with the value `null`, or present with a value. */
  datatype Field<+T> = Absent | Null | Given(value: T)
}
