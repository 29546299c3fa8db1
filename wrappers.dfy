/** The optional-value type used for the schema's `.optional()` parts and nullable state. */
module Wrappers {

  datatype Option<+T> = None | Some(value: T)
}
