/** Small shared types: an unsigned 8-bit value and an optional value. */
module Basics {

  /** A C/C++ `uint8_t`. */
  type Byte = b: int | 0 <= b < 256

  datatype Option<+T> = None | Some(value: T)
}
