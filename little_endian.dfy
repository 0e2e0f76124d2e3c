/**
 * Fixed-width integers and their little-endian byte encodings, as produced by
 * Rust's `to_le_bytes` for `u16`, `u32` and `i16` (two's complement).
 */
module LittleEndian {

  newtype uint8 = x: int | 0 <= x < 0x100
  newtype uint16 = x: int | 0 <= x < 0x1_0000
  newtype uint32 = x: int | 0 <= x < 0x1_0000_0000
  newtype int16 = x: int | -0x8000 <= x < 0x8000

  /** Reads two bytes, least significant first. */
  function DecodeU16(b: seq<uint8>): (v: uint16)
    requires |b| == 2
  {
    (b[0] as int + 0x100 * b[1] as int) as uint16
  }

  /** Reads four bytes, least significant first. */
  function DecodeU32(b: seq<uint8>): (v: uint32)
    requires |b| == 4
  {
    (b[0] as int + 0x100 * b[1] as int + 0x1_0000 * b[2] as int + 0x100_0000 * b[3] as int) as uint32
  }

  /** `u16::to_le_bytes`: decoding the two bytes gives the value back. */
  function EncodeU16(v: uint16): (b: seq<uint8>)
    ensures |b| == 2 && DecodeU16(b) == v
  {
    [(v as int % 0x100) as uint8, (v as int / 0x100) as uint8]
  }

  /** `u32::to_le_bytes`: decoding the four bytes gives the value back. */
  function EncodeU32(v: uint32): (b: seq<uint8>)
    ensures |b| == 4 && DecodeU32(b) == v
  {
    var x := v as int;
    DigitsU32(x);
    [(x % 0x100) as uint8, (x / 0x100 % 0x100) as uint8,
     (x / 0x1_0000 % 0x100) as uint8, (x / 0x100_0000) as uint8]
  }

  lemma DigitsU32(x: int)
    requires 0 <= x < 0x1_0000_0000
    ensures x / 0x100_0000 < 0x100
    ensures x % 0x100 + 0x100 * (x / 0x100 % 0x100) + 0x1_0000 * (x / 0x1_0000 % 0x100)
            + 0x100_0000 * (x / 0x100_0000) == x
  {
    var q1 := x / 0x100;
    var q2 := q1 / 0x100;
    var q3 := q2 / 0x100;
    assert x == x % 0x100 + 0x100 * q1;
    assert q1 == q1 % 0x100 + 0x100 * q2;
    assert q2 == q2 % 0x100 + 0x100 * q3;
    assert x / 0x1_0000 == q2;
    assert x / 0x100_0000 == q3;
  }

  /** Encoding the decoded value of any two bytes gives the bytes back. */
  lemma {:induction false} EncodeDecodeU16(b: seq<uint8>)
    requires |b| == 2
    ensures EncodeU16(DecodeU16(b)) == b
  {
    var x := b[0] as int + 0x100 * b[1] as int;
    assert x % 0x100 == b[0] as int && x / 0x100 == b[1] as int;
  }

  /** Encoding the decoded value of any four bytes gives the bytes back. */
  lemma {:induction false} EncodeDecodeU32(b: seq<uint8>)
    requires |b| == 4
    ensures EncodeU32(DecodeU32(b)) == b
  {
    var x := DecodeU32(b) as int;
    var hi := b[1] as int + 0x100 * b[2] as int + 0x1_0000 * b[3] as int;
    assert x == b[0] as int + 0x100 * hi;
    assert x % 0x100 == b[0] as int && x / 0x100 == hi;
    var hi2 := b[2] as int + 0x100 * b[3] as int;
    assert hi == b[1] as int + 0x100 * hi2;
    assert hi % 0x100 == b[1] as int && hi / 0x100 == hi2;
    assert x / 0x1_0000 == hi2 by { assert x / 0x1_0000 == (x / 0x100) / 0x100; }
    assert hi2 % 0x100 == b[2] as int && hi2 / 0x100 == b[3] as int;
    assert x / 0x100_0000 == b[3] as int by { assert x / 0x100_0000 == hi2 / 0x100; }
  }

  /** The bit pattern of an `i16` read as a `u16` (two's complement). */
  function ToBits16(x: int16): (u: uint16)
    ensures (u as int - x as int) % 0x1_0000 == 0
  {
    if x < 0 then (x as int + 0x1_0000) as uint16 else x as int as uint16
  }

  /** The `i16` whose two's-complement bit pattern is `u`. */
  function FromBits16(u: uint16): (x: int16)
    ensures (u as int - x as int) % 0x1_0000 == 0
  {
    if u < 0x8000 then u as int as int16 else (u as int - 0x1_0000) as int16
  }

  /** Reading two bytes as a little-endian two's-complement `i16`. */
  function DecodeI16(b: seq<uint8>): (x: int16)
    requires |b| == 2
  {
    FromBits16(DecodeU16(b))
  }

  /** `i16::to_le_bytes`: decoding the two bytes gives the value back. */
  function EncodeI16(x: int16): (b: seq<uint8>)
    ensures |b| == 2 && DecodeI16(b) == x
  {
    EncodeU16(ToBits16(x))
  }

  /** Encoding the signed value of any two bytes gives the bytes back. */
  lemma {:induction false} EncodeDecodeI16(b: seq<uint8>)
    requires |b| == 2
    ensures EncodeI16(DecodeI16(b)) == b
  {
    var u := DecodeU16(b);
    assert ToBits16(FromBits16(u)) == u;
    EncodeDecodeU16(b);
  }

  /** Rust's `n as u32` on an unsigned size: keeps the low 32 bits. */
  function TruncateU32(n: nat): (v: uint32)
    ensures n < 0x1_0000_0000 ==> v as int == n
    ensures (n - v as int) % 0x1_0000_0000 == 0
  {
    (n % 0x1_0000_0000) as uint32
  }
}
