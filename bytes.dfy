/** The value types shared by the bus, the command set and the data framing. */
module Bytes {

  /** An unsigned 8-bit value (Rust's `u8`). */
  type byte = x: int | 0 <= x < 0x100

  datatype Option<+T> = None | Some(value: T)
}
