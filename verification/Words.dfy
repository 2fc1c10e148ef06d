/** Unsigned 32-bit counters, and 32-bit words as bit patterns. */
module Words {
  import opened ByteValues

  type U32 = x: int | 0 <= x < 0x1_0000_0000

  function Least(a: nat, b: nat): nat {
    if a < b then a else b
  }

  function Inc(x: U32): U32 {
    if x == 0xffff_ffff then 0 else x + 1
  }

  /** a - b, wrapping below zero. */
  function Sub(a: U32, b: U32): (d: U32) {
    if a >= b then a - b else a - b + 0x1_0000_0000
  }

  /** The register value of an unbounded count. */
  function Low32(x: int): (r: U32) {
    x % 0x1_0000_0000
  }

  lemma IncOfLow(x: int)
    ensures Inc(Low32(x)) == Low32(x + 1)
  {
  }

  /** Byte k of a word, lowest first. */
  function WordByte(x: U32, k: nat): Byte
    requires k < 4
  {
    match k
    case 0 => ByteOf(x % 256)
    case 1 => ByteOf(x / 256 % 256)
    case 2 => ByteOf(x / 0x1_0000 % 256)
    case 3 => ByteOf(x / 0x100_0000 % 256)
  }

  function Complement(x: U32): U32 {
    0xffff_ffff - x
  }

  lemma WordBytesDetermine(x: U32, y: U32)
    requires WordByte(x, 0) == WordByte(y, 0) && WordByte(x, 1) == WordByte(y, 1)
    requires WordByte(x, 2) == WordByte(y, 2) && WordByte(x, 3) == WordByte(y, 3)
    ensures x == y
  {
    hide ByteOf;
    assert x % 256 == Val(ByteOf(x % 256)) && y % 256 == Val(ByteOf(y % 256));
    assert x / 256 % 256 == Val(ByteOf(x / 256 % 256)) && y / 256 % 256 == Val(ByteOf(y / 256 % 256));
    assert x / 0x1_0000 % 256 == Val(ByteOf(x / 0x1_0000 % 256))
      && y / 0x1_0000 % 256 == Val(ByteOf(y / 0x1_0000 % 256));
    assert x / 0x100_0000 % 256 == Val(ByteOf(x / 0x100_0000 % 256))
      && y / 0x100_0000 % 256 == Val(ByteOf(y / 0x100_0000 % 256));
    FourDigits(x);
    FourDigits(y);
  }

  lemma FourDigits(x: U32)
    ensures x == x % 256 + 0x100 * (x / 256 % 256) + 0x1_0000 * (x / 0x1_0000 % 256) +
      0x100_0000 * (x / 0x100_0000 % 256)
  {
  }

  /** Four bytes as one word, lowest first. */
  function FourBytes(b0: Byte, b1: Byte, b2: Byte, b3: Byte): bv32 {
    (b0 as bv32) | ((b1 as bv32) << 8) | ((b2 as bv32) << 16) | ((b3 as bv32) << 24)
  }

  lemma FourBytesDetermine(a0: Byte, a1: Byte, a2: Byte, a3: Byte, b0: Byte, b1: Byte, b2: Byte, b3: Byte)
    requires FourBytes(a0, a1, a2, a3) == FourBytes(b0, b1, b2, b3)
    ensures a0 == b0 && a1 == b1 && a2 == b2 && a3 == b3
  {
  }

  /** A counter as a bit pattern. */
  function Bits(x: U32): bv32 {
    FourBytes(WordByte(x, 0), WordByte(x, 1), WordByte(x, 2), WordByte(x, 3))
  }

  /** Different counters are different bit patterns. */
  lemma BitsInjective(x: U32, y: U32)
    ensures Bits(x) == Bits(y) <==> x == y
  {
    hide FourBytes, WordByte;
    if Bits(x) == Bits(y) {
      FourBytesDetermine(WordByte(x, 0), WordByte(x, 1), WordByte(x, 2), WordByte(x, 3),
        WordByte(y, 0), WordByte(y, 1), WordByte(y, 2), WordByte(y, 3));
      WordBytesDetermine(x, y);
    }
  }
}
