/** Small value types shared by the other modules. */
module Basics {

  /** A value that may be absent (Go's nil, or a missing map entry). */
  datatype Option<T> = None | Some(value: T)

  /** Go's byte. */
  type Byte = b: int | 0 <= b < 256
}
