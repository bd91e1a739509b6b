/** Optional values and results, the Dafny stand-ins for Go's nil pointers and (value, error) pairs. */
module Wrappers {

  /** A nullable value: `None` is Go's nil pointer. */
  datatype Option<+T> = None | Some(value: T)

  /** A value or an error: `Err` is a non-nil Go error returned beside a zero value. */
  datatype Result<+T, +E> = Ok(value: T) | Err(error: E)
}
