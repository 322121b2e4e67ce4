/** Machine-level value types shared by the scanner and the code buffer. */
module Bytes {

  /** An unsigned 8-bit byte, as Rust's `u8`. */
  newtype u8 = x: int | 0 <= x < 0x100

  /** An optional value; `None` stands for an exhausted byte stream. */
  datatype Option<T> = None | Some(value: T)
}
