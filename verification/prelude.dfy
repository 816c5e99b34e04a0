/** Machine integer ranges and the tagged-result types shared by the model. */
module Prelude {

  /** An unsigned 8-bit value (Rust `u8`). */
  type byte = x: int | 0 <= x < 0x100

  /** An unsigned 32-bit value (Rust `u32`), the type of every seed. */
  type u32 = x: int | 0 <= x < 0x1_0000_0000

  /** An unsigned 64-bit value (Rust `u64`); every `u32` is one, so the
      widening `seed as u64` and `seed.into()` keep the value. */
  type u64 = x: int | 0 <= x < 0x1_0000_0000_0000_0000

  datatype Option<T> = None | Some(value: T)

  /** Rust's `Result<T, E>`. */
  datatype Result<T, E> = Ok(value: T) | Err(error: E)

  /** Every character is ASCII, as in a byte-string literal `b"..."`. */
  predicate IsAscii(s: string) {
    forall i :: 0 <= i < |s| ==> s[i] as int < 0x80
  }

  /** The bytes of an ASCII text, as a byte-string literal `b"..."` holds them. */
  function AsciiBytes(s: string): (b: seq<byte>)
    requires IsAscii(s)
    ensures |b| == |s|
    ensures forall i :: 0 <= i < |s| ==> b[i] == s[i] as int
  {
    seq(|s|, i requires 0 <= i < |s| => s[i] as int)
  }
}
