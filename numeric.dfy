/** Fixed-width integer types of the driver and the big-endian 16-bit encoding
    used for window coordinates and pixel colours. */
module Numeric {

  /** An unsigned 8-bit value (`u8`). */
  type Byte = b: int | 0 <= b < 0x100

  /** An unsigned 16-bit value (`u16`); also an Rgb565 colour's raw value. */
  type U16 = v: int | 0 <= v < 0x1_0000

  /** An unsigned 32-bit value (`u32`), the type of a rectangle's width and height. */
  type U32 = v: int | 0 <= v < 0x1_0000_0000

  /** A signed 32-bit value (`i32`), the type of a point's coordinates. */
  type I32 = v: int | -0x8000_0000 <= v < 0x8000_0000

  /** The cast `v as u16`: keeps the low 16 bits of the two's-complement value. */
  function AsU16(v: int): (r: U16)
    ensures (v - r) % 0x1_0000 == 0
    ensures 0 <= v < 0x1_0000 ==> r == v
  {
    v % 0x1_0000
  }

  /** The two bytes `[v >> 8, v & 0xFF]`, high byte first. */
  function Be16(v: U16): seq<Byte> {
    [v / 0x100, v % 0x100]
  }

  /** The 16-bit value whose big-endian bytes are `hi`, `lo`. */
  function Word(hi: Byte, lo: Byte): (v: U16)
    ensures v / 0x100 == hi && v % 0x100 == lo
  {
    hi * 0x100 + lo
  }

  /** Decoding the two bytes of `Be16` gives back the value ... */
  lemma Be16RoundTrip(v: U16)
    ensures |Be16(v)| == 2 && Word(Be16(v)[0], Be16(v)[1]) == v
  {
  }

  /** ... and every byte pair is the encoding of exactly one value. */
  lemma Be16Word(hi: Byte, lo: Byte)
    ensures Be16(Word(hi, lo)) == [hi, lo]
  {
  }
}
