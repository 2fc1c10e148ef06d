/** Bytes, byte strings, and the bits they stand for. */
module Bytes {
  import opened ByteValues
  import opened Gf128


  type Bytes16 = s: seq<Byte> | |s| == 16 witness ZeroBytes(16)

  function ZeroBytes(n: nat): (z: seq<Byte>)
    ensures |z| == n && forall i :: 0 <= i < n ==> z[i] == 0
  {
    seq(n, i => 0)
  }

  function XorBytes(a: seq<Byte>, b: seq<Byte>): (c: seq<Byte>)
    requires |a| == |b|
    ensures |c| == |a| && forall i :: 0 <= i < |c| ==> c[i] == a[i] ^ b[i]
  {
    seq(|a|, i requires 0 <= i < |a| => a[i] ^ b[i])
  }

  /** The mask of bit k, counted from the left (most significant) end of a byte. */
  function Mask(k: nat): (m: Byte)
    requires k < 8
    ensures m != 0 && m & (m - 1) == 0
  {
    match k
    case 0 => 0x80
    case 1 => 0x40
    case 2 => 0x20
    case 3 => 0x10
    case 4 => 0x08
    case 5 => 0x04
    case 6 => 0x02
    case 7 => 0x01
  }

  predicate Bit(b: Byte, k: nat)
    requires k < 8
  {
    b & Mask(k) != 0
  }

  /** The eight bits of a byte, leftmost first. */
  function ByteBits(b: Byte): (r: Bits)
    ensures |r| == 8 && forall k :: 0 <= k < 8 ==> r[k] == Bit(b, k)
  {
    seq(8, k requires 0 <= k < 8 => Bit(b, k))
  }

  function PackByte(r: Bits): (b: Byte)
    requires |r| == 8
  {
    (if r[0] then Mask(0) else 0) | (if r[1] then Mask(1) else 0) |
    (if r[2] then Mask(2) else 0) | (if r[3] then Mask(3) else 0) |
    (if r[4] then Mask(4) else 0) | (if r[5] then Mask(5) else 0) |
    (if r[6] then Mask(6) else 0) | (if r[7] then Mask(7) else 0)
  }

  /** The bit string of a byte string. */
  function ToBits(s: seq<Byte>): (r: Bits)
    ensures |r| == 8 * |s|
  {
    if s == [] then [] else ByteBits(s[0]) + ToBits(s[1..])
  }

  /** The byte string of a bit string whose length is a multiple of eight. */
  function FromBits(r: Bits): (s: seq<Byte>)
    requires |r| % 8 == 0
    ensures |s| == |r| / 8
  {
    if r == [] then [] else [PackByte(r[..8])] + FromBits(r[8..])
  }

  lemma {:induction false} FromBitsToBits(s: seq<Byte>)
    ensures FromBits(ToBits(s)) == s
  {
    if s != [] {
      assert ToBits(s)[..8] == ByteBits(s[0]) && ToBits(s)[8..] == ToBits(s[1..]);
      FromBitsToBits(s[1..]);
    }
  }

  lemma BitsOfPacked(r: Bits)
    requires |r| == 8
    ensures ByteBits(PackByte(r)) == r
  {
    hide ByteBits;
    var b := PackByte(r);
    assert Bit(b, 0) == r[0] && Bit(b, 1) == r[1] && Bit(b, 2) == r[2] && Bit(b, 3) == r[3];
    assert Bit(b, 4) == r[4] && Bit(b, 5) == r[5] && Bit(b, 6) == r[6] && Bit(b, 7) == r[7];
  }

  lemma {:induction false} ToBitsFromBits(r: Bits)
    requires |r| % 8 == 0
    ensures ToBits(FromBits(r)) == r
  {
    hide ByteBits, PackByte;
    if r != [] {
      BitsOfPacked(r[..8]);
      ToBitsFromBits(r[8..]);
    }
  }

  lemma {:induction false} ToBitsAt(s: seq<Byte>, i: nat)
    requires i < |s|
    ensures ToBits(s)[8 * i..8 * i + 8] == ByteBits(s[i])
  {
    if i > 0 {
      ToBitsAt(s[1..], i - 1);
      assert ToBits(s)[8..] == ToBits(s[1..]);
      assert ToBits(s)[8..][8 * (i - 1)..8 * (i - 1) + 8] == ToBits(s)[8 * i..8 * i + 8];
    }
  }

  lemma XorMasked(a: Byte, b: Byte, mask: Byte)
    requires mask & (mask - 1) == 0
    ensures ((a ^ b) & mask != 0) == ((a & mask != 0) != (b & mask != 0))
  {
  }

  lemma XorByteBits(a: Byte, b: Byte)
    ensures ByteBits(a ^ b) == Xor(ByteBits(a), ByteBits(b))
  {
    forall k | 0 <= k < 8
      ensures Bit(a ^ b, k) == (Bit(a, k) != Bit(b, k))
    {
      XorMasked(a, b, Mask(k));
    }
    hide Bit;
  }

  lemma {:induction false} ToBitsXor(a: seq<Byte>, b: seq<Byte>)
    requires |a| == |b|
    ensures ToBits(XorBytes(a, b)) == Xor(ToBits(a), ToBits(b))
  {
    if a != [] {
      assert XorBytes(a, b)[1..] == XorBytes(a[1..], b[1..]);
      ToBitsXor(a[1..], b[1..]);
      XorByteBits(a[0], b[0]);
      hide ByteBits;
    }
  }

  lemma {:induction false} ToBitsZero(n: nat)
    ensures ToBits(ZeroBytes(n)) == Zeros(8 * n)
  {
    if n > 0 {
      assert ZeroBytes(n)[1..] == ZeroBytes(n - 1);
      ToBitsZero(n - 1);
    }
  }

  lemma {:induction false} ToBitsConcat(a: seq<Byte>, b: seq<Byte>)
    ensures ToBits(a + b) == ToBits(a) + ToBits(b)
  {
    if a == [] {
      assert a + b == b;
    } else {
      assert (a + b)[1..] == a[1..] + b;
      ToBitsConcat(a[1..], b);
    }
  }

  // ---------------------------------------------------------------- byte-string loops

  method BytesZero(dst: array<Byte>, len: nat)
    requires len <= dst.Length
    modifies dst
    ensures dst[..] == ZeroBytes(len) + old(dst[len..])
  {
    for i := 0 to len
      invariant forall k :: 0 <= k < i ==> dst[k] == 0
      invariant forall k :: i <= k < dst.Length ==> dst[k] == old(dst[k])
    {
      dst[i] := 0;
    }
  }

  method BytesCopy(dst: array<Byte>, src: array<Byte>, len: nat)
    requires len <= dst.Length && len <= src.Length && dst != src
    modifies dst
    ensures dst[..] == src[..len] + old(dst[len..])
  {
    for i := 0 to len
      invariant dst[..i] == src[..i]
      invariant forall k :: i <= k < dst.Length ==> dst[k] == old(dst[k])
    {
      dst[i] := src[i];
    }
  }

  /** The comparison looks at every byte, whatever it finds, and still decides equality. */
  method BytesEqual(a: array<Byte>, b: array<Byte>, len: nat) returns (equal: bool)
    requires len <= a.Length && len <= b.Length
    ensures equal <==> a[..len] == b[..len]
  {
    var diff: Byte := 0;
    for i := 0 to len
      invariant diff == 0 <==> a[..i] == b[..i]
    {
      var d := a[i] ^ b[i];
      assert d == 0 <==> a[i] == b[i];
      assert diff | d == 0 <==> diff == 0 && d == 0;
      assert a[..i + 1] == a[..i] + [a[i]] && b[..i + 1] == b[..i] + [b[i]];
      diff := diff | d;
    }
    equal := diff == 0;
  }
}
