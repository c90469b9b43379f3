/** A nullable value: the model's stand-in for a database column that may be NULL. */
module Wrappers {

  datatype Option<+T> = None | Some(value: T)
}
