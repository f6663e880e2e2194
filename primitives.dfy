/** Fixed-width integer types of the Rust source, the Option/Result wrappers
    used for its fallible operations, and the 8-bit RGB colour (`rgb::RGB8`). */
module Primitives {

  type uint8 = x: int | 0 <= x < 0x100
  type uint16 = x: int | 0 <= x < 0x1_0000
  type uint32 = x: int | 0 <= x < 0x1_0000_0000
  type int8 = x: int | -0x80 <= x < 0x80
  type int32 = x: int | -0x8000_0000 <= x < 0x8000_0000
  type int64 = x: int | -0x8000_0000_0000_0000 <= x < 0x8000_0000_0000_0000
  type uint64 = x: int | 0 <= x < 0x1_0000_0000_0000_0000

  const TWO_32: int := 0x1_0000_0000

  datatype Option<+T> = None | Some(value: T) {
    function GetOr(default: T): T {
      match this
      case Some(v) => v
      case None => default
    }
  }

  datatype Result<+T, +E> = Ok(value: T) | Err(error: E)

  /** `rgb::RGB8`: one byte per channel. */
  datatype Rgb = Rgb(r: uint8, g: uint8, b: uint8)

  /** `u32::wrapping_sub`: the difference taken modulo 2^32. */
  function WrappingSub32(a: uint32, b: uint32): (r: uint32)
    ensures (r - (a - b)) % TWO_32 == 0
    ensures a >= b ==> r == a - b
    ensures a < b ==> r == TWO_32 - (b - a)
  {
    (a - b) % TWO_32
  }

  function Min(a: int, b: int): int { if a < b then a else b }
  function Max(a: int, b: int): int { if a < b then b else a }
}
