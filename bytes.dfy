/**
 * Fixed-width integers of the FX3 firmware (uint8_t, uint16_t, uint32_t,
 * int32_t) as subsets of int, and the byte packings the firmware writes by
 * hand with shifts and masks.
 */
module Bytes {

  type byte = b: int | 0 <= b < 0x100
  type u16 = v: int | 0 <= v < 0x1_0000
  type u32 = v: int | 0 <= v < 0x1_0000_0000
  type i32 = v: int | -0x8000_0000 <= v < 0x8000_0000

  /** `v >> 8` of a 16-bit value. */
  function HiByte(v: u16): byte { v / 0x100 }

  /** `v & 0xFF`. */
  function LoByte(v: u16): byte { v % 0x100 }

  /** `(hi << 8) | lo`: the two bytes are recovered by HiByte and LoByte. */
  function Pack16(hi: byte, lo: byte): (v: u16)
    ensures HiByte(v) == hi && LoByte(v) == lo
  {
    hi * 0x100 + lo
  }

  /** Splitting a 16-bit value and packing the halves gives it back. */
  lemma Split16(v: u16)
    ensures Pack16(HiByte(v), LoByte(v)) == v
  {
  }

  /** `(v >> (8 * k)) & 0xFF` of a 32-bit value: byte k counted from the least significant end. */
  function ByteOf(v: u32, k: nat): byte
    requires k < 4
  {
    if k == 0 then v % 0x100
    else if k == 1 then (v / 0x100) % 0x100
    else if k == 2 then (v / 0x1_0000) % 0x100
    else v / 0x100_0000
  }

  /** A 32-bit value as four bytes, least significant first. */
  function LE32(v: u32): (s: seq<byte>)
    ensures |s| == 4
    ensures FromLE32(s) == v
  {
    DigitsOf(v);
    [ByteOf(v, 0), ByteOf(v, 1), ByteOf(v, 2), ByteOf(v, 3)]
  }

  /** A 32-bit value as four bytes, most significant first. */
  function BE32(v: u32): (s: seq<byte>)
    ensures |s| == 4
    ensures FromBE32(s) == v
  {
    DigitsOf(v);
    [ByteOf(v, 3), ByteOf(v, 2), ByteOf(v, 1), ByteOf(v, 0)]
  }

  /** Four bytes, least significant first, as a 32-bit value. */
  function FromLE32(s: seq<byte>): u32
    requires |s| == 4
  {
    s[0] as int + s[1] as int * 0x100 + s[2] as int * 0x1_0000 + s[3] as int * 0x100_0000
  }

  /** Four bytes, most significant first, as a 32-bit value. */
  function FromBE32(s: seq<byte>): u32
    requires |s| == 4
  {
    s[3] as int + s[2] as int * 0x100 + s[1] as int * 0x1_0000 + s[0] as int * 0x100_0000
  }

  /** The four bytes of v weigh back to v. */
  lemma DigitsOf(v: u32)
    ensures ByteOf(v, 0) + ByteOf(v, 1) * 0x100 + ByteOf(v, 2) * 0x1_0000 + ByteOf(v, 3) * 0x100_0000 == v
  {
    var q1 := v / 0x100;
    var q2 := q1 / 0x100;
    var q3 := q2 / 0x100;
    assert v == q1 * 0x100 + v % 0x100;
    assert q1 == q2 * 0x100 + q1 % 0x100;
    assert q2 == q3 * 0x100 + q2 % 0x100;
    assert q2 == v / 0x1_0000;
    assert q3 == v / 0x100_0000;
  }

  /** Decoding four bytes and encoding the value again gives the same bytes. */
  lemma {:induction false} LE32OfFromLE32(s: seq<byte>)
    requires |s| == 4
    ensures LE32(FromLE32(s)) == s
  {
    var v := FromLE32(s);
    assert v % 0x100 == s[0];
    assert v / 0x100 == s[1] as int + s[2] as int * 0x100 + s[3] as int * 0x1_0000;
    assert v / 0x1_0000 == s[2] as int + s[3] as int * 0x100;
    assert v / 0x100_0000 == s[3];
  }
}
