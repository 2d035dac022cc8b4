/** Go's error values and its (value, error) return pairs. */
module Wrappers {

  /** An opaque Go `error`; only its identity matters to the exporter. */
  datatype Error = Error(message: string)

  datatype Option<+T> = None | Some(value: T)

  /** A Go `(T, error)` return where exactly one side is meaningful:
      `Err` stands for a nil value with a non-nil error. */
  datatype Result<+T> = Ok(value: T) | Err(error: Error)
}
