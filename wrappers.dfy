/** Small value types shared by every module: a nullable result and the
    two-valued status code the C functions return. */
module Wrappers {

  /** A C pointer that may be NULL. */
  datatype Option<+T> = None | Some(value: T)

  /** `STATUS_OK` / `STATUS_FAIL`. */
  datatype Status = OK | FAIL
}
