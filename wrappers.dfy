/** Optional values, error returns and byte strings, standing in for Go's nil
    pointers, `(value, error)` pairs and `[]byte`. */
module Wrappers {

  datatype Option<+T> = None | Some(value: T)

  /** A Go `(T, error)` pair where exactly one side is meaningful. */
  datatype Result<+T, +E> = Ok(value: T) | Err(error: E)

  newtype Byte = b: int | 0 <= b < 256

  /** A response body or cached response, kept as opaque bytes. */
  type Bytes = seq<Byte>
}
