/** Values standing for Python's `None` and for raised exceptions. */
module Wrappers {

  /** A value that may be absent: `None` is Python's `None`. */
  datatype Option<+T> = None | Some(value: T)

  /** The outcome of a Python call: a returned value, or an exception carrying its message `str(e)`. */
  datatype Result<+T> = Ok(value: T) | Err(message: string)
}
