/** Absent values (SQL null, nil pointers) and the error results of the kernel's operations. */
module Wrappers {
  datatype Option<+T> = None | Some(value: T)
  datatype Result<+T> = Ok(value: T) | Err(error: string)
}
