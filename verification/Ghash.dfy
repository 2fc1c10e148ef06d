/** GHASH: the chunked authentication hash of the firmware against sections 6.4 and 7.1 of
    NIST SP 800-38D. */
module Ghash {
  import opened Bytes
  import opened ByteValues
  import opened GfBytes

  // ---------------------------------------------------------------- big-endian numbers

  /** The low k bytes of n, most significant first. */
  function Be(n: nat, k: nat): (s: seq<Byte>)
    ensures |s| == k
  {
    if k == 0 then [] else Be(n / 256, k - 1) + [ByteOf(n % 256)]
  }

  lemma BeOfFour(n: nat, k: nat)
    ensures Be(n, k + 4) == Be(n / 256 / 256 / 256 / 256, k) +
      [ByteOf(n / 256 / 256 / 256 % 256), ByteOf(n / 256 / 256 % 256), ByteOf(n / 256 % 256), ByteOf(n % 256)]
  {
    hide Val, ByteOf;
    assert Be(n / 256 / 256 / 256, k + 1) == Be(n / 256 / 256 / 256 / 256, k) + [ByteOf(n / 256 / 256 / 256 % 256)];
    assert Be(n / 256 / 256, k + 2) == Be(n / 256 / 256 / 256, k + 1) + [ByteOf(n / 256 / 256 % 256)];
    assert Be(n / 256, k + 3) == Be(n / 256 / 256, k + 2) + [ByteOf(n / 256 % 256)];
  }

  function Value4(s: seq<Byte>): nat
    requires |s| == 4
  {
    0x100_0000 * Val(s[0]) + 0x1_0000 * Val(s[1]) + 0x100 * Val(s[2]) + Val(s[3])
  }

  const TWO_TO_32: nat := 0x1_0000_0000

  lemma ValueOfBe(n: nat)
    requires n < TWO_TO_32
    ensures Value4(Be(n, 4)) == n
  {
    hide Val, ByteOf, Be;
    BeOfFour(n, 0);
    assert Be(n / 256 / 256 / 256 / 256, 0) == [];
  }

  lemma BeModulo(n: nat)
    ensures Be(n, 4) == Be(n % TWO_TO_32, 4)
  {
    hide Val, ByteOf;
    var m, q := n % TWO_TO_32, n / TWO_TO_32;
    assert n == m + q * TWO_TO_32;
    assert n % 256 == m % 256 && n / 256 == m / 256 + q * 0x100_0000;
    assert n / 256 % 256 == m / 256 % 256 && n / 256 / 256 == m / 256 / 256 + q * 0x1_0000;
    assert n / 256 / 256 % 256 == m / 256 / 256 % 256 && n / 256 / 256 / 256 == m / 256 / 256 / 256 + q * 0x100;
    assert n / 256 / 256 / 256 % 256 == m / 256 / 256 / 256 % 256;
    BeOfFour(n, 0);
    BeOfFour(m, 0);
  }

  lemma BeOfZero()
    ensures Be(0, 4) == ZeroBytes(4)
  {
    BeOfFour(0, 0);
  }

  lemma UpperHalf(n: nat)
    requires n < TWO_TO_32
    ensures Be(n, 4) == ZeroBytes(4) <==> n == 0
  {
    hide Val, ByteOf, Be;
    ValueOfBe(n);
    BeOfZero();
    ValueOfBe(0);
  }

  lemma FourDivisions(n: nat)
    ensures n / 256 / 256 / 256 / 256 == n / TWO_TO_32
  {
  }

  /** A 64-bit number is its upper half and its lower half; the upper half is zero exactly when
      the number fits in 32 bits. */
  lemma Be64(n: nat)
    requires n < 8 * TWO_TO_32
    ensures Be(n, 8) == Be(n / TWO_TO_32, 4) + Be(n % TWO_TO_32, 4)
    ensures Be(n / TWO_TO_32, 4) == ZeroBytes(4) <==> n < TWO_TO_32
  {
    hide Val, ByteOf, Be, ZeroBytes;
    FourDivisions(n);
    BeOfFour(n, 4);
    BeOfFour(n, 0);
    BeModulo(n);
    UpperHalf(n / TWO_TO_32);
  }

  // ---------------------------------------------------------------- the standard's definition

  /** Section 6.4: the running value y after hashing the 16-byte blocks of x, from y. */
  function GhashFrom(h: Bytes16, y: Bytes16, x: seq<Byte>): (r: Bytes16)
    requires |x| % 16 == 0
    decreases |x|
  {
    hide GfMul, XorBytes, ZeroBytes;
    if x == [] then y
    else
      assert |x| >= 16 && (|x| - 16) % 16 == 0;
      GhashFrom(h, GfMul(XorBytes(y, x[..16]), h), x[16..])
  }

  function GhashValue(h: Bytes16, x: seq<Byte>): (r: Bytes16)
    requires |x| % 16 == 0
  {
    GhashFrom(h, ZeroBytes(16), x)
  }

  function Padding(n: nat): (p: nat)
    ensures p < 16 && (n + p) % 16 == 0
  {
    (16 - n % 16) % 16
  }

  /** The shortest zero padding to whole blocks. */
  function Pad(s: seq<Byte>): (p: seq<Byte>)
    ensures |p| % 16 == 0 && |s| <= |p| < |s| + 16 && p[..|s|] == s
  {
    s + ZeroBytes(Padding(|s|))
  }

  lemma WholeBlocks(m: nat, n: nat)
    requires m % 16 == 0 && n % 16 == 0
    ensures (m + n) % 16 == 0
  {
  }

  /** Step 5 of section 7.1: both bit lengths as 64-bit numbers. */
  function StandardLengths(aadLen: nat, cLen: nat): (b: Bytes16) {
    Be(8 * aadLen, 8) + Be(8 * cLen, 8)
  }

  function StandardInput(aad: seq<Byte>, c: seq<Byte>): (x: seq<Byte>)
    ensures |x| % 16 == 0
  {
    WholeBlocks(|Pad(aad)|, |Pad(c)|);
    WholeBlocks(|Pad(aad)| + |Pad(c)|, 16);
    Pad(aad) + Pad(c) + StandardLengths(|aad|, |c|)
  }

  // ---------------------------------------------------------------- what the firmware hashes

  /** The firmware shifts each 32-bit byte length left by three, so three bits can fall off, and
      leaves the upper half of each 64-bit field zero. */
  function FirmwareLengths(aadLen: nat, cLen: nat): (b: Bytes16) {
    ZeroBytes(4) + Be(8 * aadLen % TWO_TO_32, 4) + ZeroBytes(4) + Be(8 * cLen % TWO_TO_32, 4)
  }

  function FirmwareInput(aad: seq<Byte>, c: seq<Byte>): (x: seq<Byte>)
    ensures |x| % 16 == 0
  {
    WholeBlocks(|Pad(aad)|, |Pad(c)|);
    WholeBlocks(|Pad(aad)| + |Pad(c)|, 16);
    Pad(aad) + Pad(c) + FirmwareLengths(|aad|, |c|)
  }

  /** For 32-bit lengths, the length block is the standard's exactly when neither length reaches
      2^29 bytes; then, and only then, the firmware hashes the standard's input. */
  lemma LengthsConform(aad: seq<Byte>, c: seq<Byte>)
    requires |aad| < TWO_TO_32 && |c| < TWO_TO_32
    ensures FirmwareInput(aad, c) == StandardInput(aad, c) <==> |aad| < 0x2000_0000 && |c| < 0x2000_0000
  {
    hide Be, Pad;
    Be64(8 * |aad|);
    Be64(8 * |c|);
    var f, s := FirmwareLengths(|aad|, |c|), StandardLengths(|aad|, |c|);
    assert s == Be(8 * |aad| / TWO_TO_32, 4) + Be(8 * |aad| % TWO_TO_32, 4) + Be(8 * |c| / TWO_TO_32, 4) +
      Be(8 * |c| % TWO_TO_32, 4);
    assert s[..4] == Be(8 * |aad| / TWO_TO_32, 4) && s[8..12] == Be(8 * |c| / TWO_TO_32, 4);
    assert f[..4] == ZeroBytes(4) && f[8..12] == ZeroBytes(4);
    var p := Pad(aad) + Pad(c);
    assert (p + f)[|p|..] == f && (p + s)[|p|..] == s;
    assert FirmwareInput(aad, c) == p + f && StandardInput(aad, c) == p + s;
    if FirmwareInput(aad, c) == StandardInput(aad, c) {
      assert f == s;
      assert f[..4] == s[..4] && f[8..12] == s[8..12];
      assert |aad| < 0x2000_0000 && |c| < 0x2000_0000;
    }
    if |aad| < 0x2000_0000 && |c| < 0x2000_0000 {
      assert f == s;
    }
  }

  /** The shortest associated data for which it is not: its length block is all zeros. */
  lemma LongDataDiffers()
    ensures var aad := ZeroBytes(0x2000_0000);
      FirmwareInput(aad, []) != StandardInput(aad, []) && FirmwareLengths(|aad|, 0) == ZeroBytes(16)
  {
    hide FirmwareInput, StandardInput, Be;
    LengthsConform(ZeroBytes(0x2000_0000), []);
    BeOfZero();
  }

  // ---------------------------------------------------------------- the chunk loops

  /** ghash_update */
  method GhashUpdate(y: array<Byte>, h: array<Byte>, block: array<Byte>)
    requires y.Length == h.Length == block.Length == 16
    modifies y
    ensures y[..] == GfMul(XorBytes(old(y[..]), old(block[..])), old(h[..]))
  {
    hide GfMul, XorBytes;
    ghost var y0, b0 := y[..], block[..];
    var tmp := new Byte[16];
    for i := 0 to 16
      invariant forall k :: 0 <= k < i ==> tmp[k] == y[k] ^ block[k]
      invariant y[..] == y0 && block[..] == b0
    {
      tmp[i] := y[i] ^ block[i];
    }
    assert y[..] == y0 && block[..] == b0;
    assert tmp[..] == XorBytes(y0, b0);
    GfMul128(tmp, h, y);
  }

  lemma PaddingOf(n: nat)
    ensures n > 16 ==> Padding(n) == Padding(n - 16)
    ensures 0 < n <= 16 ==> Padding(n) == 16 - n
    ensures n == 0 ==> Padding(n) == 0
  {
    if n > 16 {
      assert n % 16 == (n - 16) % 16;
    } else if n == 16 {
    } else if n > 0 {
      assert n % 16 == n;
    }
  }

  lemma PadChunk(s: seq<Byte>, off: nat, take: nat)
    requires off < |s| && take == if |s| - off > 16 then 16 else |s| - off
    ensures Pad(s[off..]) == (s[off..off + take] + ZeroBytes(16 - take)) + Pad(s[off + take..])
  {
    hide ZeroBytes, Padding;
    PaddingOf(|s| - off);
    PaddingOf(|s| - off - take);
    assert s[off..] == s[off..off + take] + s[off + take..];
    assert ZeroBytes(0) == [];
  }

  lemma GhashStep(h: Bytes16, y: Bytes16, block: Bytes16, rest: seq<Byte>)
    requires |rest| % 16 == 0
    ensures GhashFrom(h, y, block + rest) == GhashFrom(h, GfMul(XorBytes(y, block), h), rest)
  {
    assert (block + rest)[..16] == block && (block + rest)[16..] == rest;
  }

  lemma {:induction false} GhashConcat(h: Bytes16, y: Bytes16, a: seq<Byte>, b: seq<Byte>)
    requires |a| % 16 == 0 && |b| % 16 == 0
    ensures GhashFrom(h, y, a + b) == GhashFrom(h, GhashFrom(h, y, a), b)
    decreases |a|
  {
    hide GfMul, XorBytes;
    if a == [] {
      assert a + b == b;
    } else {
      assert a + b == a[..16] + (a[16..] + b);
      GhashStep(h, y, a[..16], a[16..] + b);
      GhashConcat(h, GfMul(XorBytes(y, a[..16]), h), a[16..], b);
    }
  }

  /** One chunk loop of ghash: absorb a buffer of any length, the last block padded with zeros. */
  method Absorb(h: array<Byte>, y: array<Byte>, data: array<Byte>, len: nat)
    requires h.Length == y.Length == 16 && len <= data.Length
    requires y != h && y != data
    modifies y
    ensures y[..] == GhashFrom(h[..], old(y[..]), Pad(old(data[..len])))
  {
    hide *;
    ghost var s, h0, y0 := data[..len], h[..], y[..];
    var block := new Byte[16];
    var off := 0;
    assert s[0..] == s;
    while off < len
      invariant off <= len
      invariant unchanged(h) && unchanged(data)
      invariant GhashFrom(h0, y[..], Pad(s[off..])) == GhashFrom(h0, y0, Pad(s))
    {
      var take := len - off;
      if take > 16 {
        take := 16;
      }
      assert s == data[..len] && s[off..off + take] == data[off..off + take];
      FillBlock(block, data, off, take);
      assert block[..] == s[off..off + take] + ZeroBytes(16 - take);
      PadChunk(s, off, take);
      GhashStep(h0, y[..], block[..], Pad(s[off + take..]));
      GhashUpdate(y, h, block);
      off := off + take;
    }
    assert s[off..] == [];
    PadEmpty(h0, y[..]);
  }

  lemma PadEmpty(h: Bytes16, y: Bytes16)
    ensures GhashFrom(h, y, Pad([])) == y
  {
    hide GfMul, XorBytes;
    assert Padding(0) == 0 by {
      hide *;
      PaddingOf(0);
    }
    assert Pad([]) == [];
  }

  method FillBlock(block: array<Byte>, data: array<Byte>, off: nat, take: nat)
    requires block.Length == 16 && take <= 16 && off + take <= data.Length && block != data
    modifies block
    ensures block[..] == data[off..off + take] + ZeroBytes(16 - take)
  {
    BytesZero(block, 16);
    for i := 0 to take
      invariant forall k :: 0 <= k < i ==> block[k] == data[off + k]
      invariant forall k :: i <= k < 16 ==> block[k] == 0
    {
      block[i] := data[off + i];
    }
  }

  method LengthBlock(aadLen: nat, cLen: nat) returns (block: array<Byte>)
    requires aadLen < TWO_TO_32 && cLen < TWO_TO_32
    ensures fresh(block) && block.Length == 16 && block[..] == FirmwareLengths(aadLen, cLen)
  {
    hide Val, ByteOf;
    block := new Byte[16];
    BytesZero(block, 16);
    var aadBits, cBits := 8 * aadLen % TWO_TO_32, 8 * cLen % TWO_TO_32;
    block[4] := ByteOf(aadBits / 256 / 256 / 256 % 256);
    block[5] := ByteOf(aadBits / 256 / 256 % 256);
    block[6] := ByteOf(aadBits / 256 % 256);
    block[7] := ByteOf(aadBits % 256);
    block[12] := ByteOf(cBits / 256 / 256 / 256 % 256);
    block[13] := ByteOf(cBits / 256 / 256 % 256);
    block[14] := ByteOf(cBits / 256 % 256);
    block[15] := ByteOf(cBits % 256);
    BeOfFour(aadBits, 0);
    BeOfFour(cBits, 0);
    assert Be(aadBits / 256 / 256 / 256 / 256, 0) == Be(cBits / 256 / 256 / 256 / 256, 0) == [];
    assert block[..] == FirmwareLengths(aadLen, cLen);
  }

  /** ghash */
  method GhashBytes(h: array<Byte>, aad: array<Byte>, aadLen: nat, c: array<Byte>, cLen: nat, out: array<Byte>)
    requires h.Length == out.Length == 16
    requires aadLen <= aad.Length && aadLen < TWO_TO_32 && cLen <= c.Length && cLen < TWO_TO_32
    modifies out
    ensures out[..] == GhashValue(old(h[..]), FirmwareInput(old(aad[..aadLen]), old(c[..cLen])))
  {
    hide *;
    ghost var h0, a0, c0 := h[..], aad[..aadLen], c[..cLen];
    var y := new Byte[16];
    BytesZero(y, 16);
    assert y[..] == ZeroBytes(16);
    Absorb(h, y, aad, aadLen);
    assert h[..] == h0 && c[..cLen] == c0;
    Absorb(h, y, c, cLen);
    assert h[..] == h0;
    var lenBlock := LengthBlock(aadLen, cLen);
    GhashUpdate(y, h, lenBlock);
    FirmwareIs(a0, c0);
    GhashPhases(h0, a0, c0, FirmwareLengths(|a0|, |c0|));
    BytesCopy(out, y, 16);
    assert out[..] == y[..];
  }

  lemma FirmwareIs(aad: seq<Byte>, c: seq<Byte>)
    ensures FirmwareInput(aad, c) == Pad(aad) + Pad(c) + FirmwareLengths(|aad|, |c|)
    ensures |Pad(aad) + Pad(c) + FirmwareLengths(|aad|, |c|)| % 16 == 0
  {
    hide Pad, FirmwareLengths;
  }

  lemma GhashPhases(h: Bytes16, aad: seq<Byte>, c: seq<Byte>, l: Bytes16)
    requires |Pad(aad) + Pad(c) + l| % 16 == 0
    ensures GhashValue(h, Pad(aad) + Pad(c) + l) ==
      GfMul(XorBytes(GhashFrom(h, GhashFrom(h, ZeroBytes(16), Pad(aad)), Pad(c)), l), h)
  {
    hide GfMul, XorBytes, Pad, ZeroBytes;
    GhashConcat(h, ZeroBytes(16), Pad(aad) + Pad(c), l);
    GhashConcat(h, ZeroBytes(16), Pad(aad), Pad(c));
    var y := GhashFrom(h, ZeroBytes(16), Pad(aad) + Pad(c));
    assert l + [] == l;
    GhashStep(h, y, l, []);
  }

  // ---------------------------------------------------------------- when the lengths matter

  /** For any lengths, the firmware's hash is the standard's exactly if h takes the difference of the two length
      blocks to zero. */
  lemma HashConforms(h: Bytes16, aad: seq<Byte>, c: seq<Byte>)
    ensures GhashValue(h, FirmwareInput(aad, c)) == GhashValue(h, StandardInput(aad, c)) <==>
      GfMul(XorBytes(FirmwareLengths(|aad|, |c|), StandardLengths(|aad|, |c|)), h) == ZeroBytes(16)
  {
    hide GfMul, XorBytes, Pad, FirmwareLengths, StandardLengths, ZeroBytes;
    var y := GhashFrom(h, GhashFrom(h, ZeroBytes(16), Pad(aad)), Pad(c));
    FirmwareIs(aad, c);
    GhashPhases(h, aad, c, FirmwareLengths(|aad|, |c|));
    GhashPhases(h, aad, c, StandardLengths(|aad|, |c|));
    DifferBy(h, y, FirmwareLengths(|aad|, |c|), StandardLengths(|aad|, |c|));
  }
}
