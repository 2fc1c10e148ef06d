/** The bit-serial multiplier of the firmware, on 16-byte arrays, refines the field product. */
module GfBytes {
  import opened Gf128
  import opened ByteValues
  import opened Bytes

  /** The block whose coefficients are the bits of sixteen bytes. */
  function AsBlock(s: Bytes16): (b: Block) {
    ToBits(s)
  }

  function GfMul(x: Bytes16, y: Bytes16): (r: Bytes16) {
    FromBits(Mul(AsBlock(x), AsBlock(y)))
  }

  /** Sixteen bytes shifted right by one place as one 128-bit string. */
  ghost predicate ShiftedRight(before: seq<Byte>, after: seq<Byte>)
    requires |before| == |after| == 16
  {
    ToBits(after) == [false] + ToBits(before)[..127]
  }

  /** What one step of the byte loop makes of a byte, given the carry from the byte to its left. */
  function ShiftByte(carry: Byte, b: Byte): Byte {
    (b >> 1) | (carry << 7)
  }

  lemma ShiftByteBit(carry: Byte, b: Byte, k: nat)
    requires carry <= 1 && k < 8
    ensures Bit(ShiftByte(carry, b), k) == if k == 0 then carry == 1 else Bit(b, k - 1)
  {
    assert k > 0 ==> Mask(k) << 1 == Mask(k - 1) && Mask(k) != 0x80;
    hide ShiftByte;
  }

  lemma LastBit(b: Byte)
    ensures b & 1 <= 1 && (b & 1 == 1 <==> Bit(b, 7))
  {
  }

  lemma ShiftByteBits(carry: Byte, b: Byte)
    requires carry <= 1
    ensures ByteBits(ShiftByte(carry, b)) == [carry == 1] + ByteBits(b)[..7]
    ensures b & 1 <= 1 && (b & 1 == 1 <==> ByteBits(b)[7])
  {
    hide Bit, ShiftByte;
    forall k | 0 <= k < 8
      ensures Bit(ShiftByte(carry, b), k) == if k == 0 then carry == 1 else Bit(b, k - 1)
    {
      ShiftByteBit(carry, b, k);
    }
    LastBit(b);
  }

  lemma {:induction false} ShiftedBytes(before: seq<Byte>, after: seq<Byte>, carry: Byte)
    requires |before| == |after| > 0 && carry <= 1
    requires after[0] == ShiftByte(carry, before[0])
    requires forall i :: 1 <= i < |before| ==> after[i] == ShiftByte(before[i - 1] & 1, before[i])
    ensures ToBits(after) == [carry == 1] + ToBits(before)[..8 * |before| - 1]
  {
    hide ByteBits, ShiftByte, Bit;
    ShiftByteBits(carry, before[0]);
    if |before| > 1 {
      var rest, n := ToBits(before[1..]), 8 * |before|;
      ShiftedBytes(before[1..], after[1..], before[0] & 1);
      assert ToBits(before) == ByteBits(before[0]) + rest;
      assert ToBits(after) == ByteBits(after[0]) + ToBits(after[1..]);
      assert (ByteBits(before[0]) + rest)[..n - 1] == ByteBits(before[0]) + rest[..n - 9];
    } else {
      assert ToBits(before) == ByteBits(before[0]) && ToBits(after) == ByteBits(after[0]);
    }
  }

  method ShiftRightOneBit(v: array<Byte>)
    requires v.Length == 16
    modifies v
    ensures ShiftedRight(old(v[..]), v[..])
  {
    var carry: Byte := 0;
    for i := 0 to 16
      invariant forall k :: i <= k < 16 ==> v[k] == old(v[k])
      invariant i > 0 ==> carry == old(v[i - 1]) & 1 && v[0] == ShiftByte(0, old(v[0]))
      invariant i == 0 ==> carry == 0
      invariant forall k :: 1 <= k < i ==> v[k] == ShiftByte(old(v[k - 1]) & 1, old(v[k]))
    {
      var newCarry := v[i] & 1;
      v[i] := (v[i] >> 1) | (carry << 7);
      carry := newCarry;
    }
    ShiftedBytes(old(v[..]), v[..], 0);
  }

  /** One round of the inner loop on v: shift right, and fold the bit that leaves back in. */
  method StepV(v: array<Byte>)
    requires v.Length == 16
    modifies v
    ensures AsBlock(v[..]) == MulX(AsBlock(old(v[..])))
  {
    var lsb := v[15] & 1;
    ToBitsAt(v[..], 15);
    assert lsb != 0 <==> AsBlock(v[..])[127] by {
      ShiftByteBits(0, v[15]);
      assert ToBits(v[..])[120..128][7] == ToBits(v[..])[127];
    }
    ShiftRightOneBit(v);
    if lsb != 0 {
      ghost var shifted := v[..];
      v[0] := v[0] ^ 0xe1;
      assert v[..] == XorBytes(shifted, [0xe1] + ZeroBytes(15));
      ToBitsXor(shifted, [0xe1] + ZeroBytes(15));
      TailBytes();
    }
  }

  lemma TailBytes()
    ensures ToBits([0xe1] + ZeroBytes(15)) == Tail()
  {
    ToBitsZero(15);
    assert ([0xe1] + ZeroBytes(15))[1..] == ZeroBytes(15);
    assert ByteBits(0xe1) == [true, true, true, false, false, false, false, true];
  }

  lemma ShiftedOne(bit: nat)
    requires bit < 8
    ensures (1 as Byte) << bit == Mask(7 - bit)
  {
    match bit {
      case 0 => case 1 => case 2 => case 3 => case 4 => case 5 => case 6 => case 7 =>
    }
  }

  /** The mask test of the inner loop reads bit 7 - bit, counted from the left. */
  lemma MaskBit(xi: Byte, bit: nat)
    requires bit < 8
    ensures (xi & ((1 as Byte) << bit) != 0) == Bit(xi, 7 - bit)
  {
    ShiftedOne(bit);
  }

  lemma {:induction false} BitOfBytes(s: seq<Byte>, i: nat, k: nat)
    requires i < |s| && k < 8
    ensures ToBits(s)[8 * i + k] == Bit(s[i], k)
  {
    hide Bit, ByteBits, ToBits;
    ToBitsAt(s, i);
    assert ToBits(s)[8 * i..8 * i + 8][k] == ToBits(s)[8 * i + k];
  }

  method XorInto(z: array<Byte>, v: array<Byte>)
    requires z.Length == v.Length == 16 && z != v
    modifies z
    ensures z[..] == XorBytes(old(z[..]), v[..])
  {
    for j := 0 to 16
      invariant forall k :: 0 <= k < j ==> z[k] == old(z[k]) ^ v[k]
      invariant forall k :: j <= k < 16 ==> z[k] == old(z[k])
    {
      z[j] := z[j] ^ v[j];
    }
  }

  /** gf_mul_128, one bit: add v if the bit is set, then multiply v by x. */
  method MulStep(z: array<Byte>, v: array<Byte>, bitSet: bool)
    requires z.Length == v.Length == 16 && z != v
    modifies z, v
    ensures AsBlock(z[..]) == (if bitSet then Xor(AsBlock(old(z[..])), AsBlock(old(v[..]))) else AsBlock(old(z[..])))
    ensures AsBlock(v[..]) == MulX(AsBlock(old(v[..])))
  {
    hide Xor, MulX, XorBytes, ToBits;
    if bitSet {
      ToBitsXor(z[..], v[..]);
      XorInto(z, v);
    }
    StepV(v);
  }

  /** What z lacks of the product is the rest of the multiplier, from bit k on, times v. */
  ghost predicate Lacks(z: Bytes16, a: Bits, k: nat, v: Bytes16, product: Block)
    requires k <= |a|
  {
    Xor(AsBlock(z), MulBits(a[k..], AsBlock(v))) == product
  }

  lemma LacksStep(z: Bytes16, v: Bytes16, a: Bits, k: nat, product: Block, z': Bytes16, v': Bytes16)
    requires k < |a| && Lacks(z, a, k, v, product)
    requires AsBlock(z') == if a[k] then Xor(AsBlock(z), AsBlock(v)) else AsBlock(z)
    requires AsBlock(v') == MulX(AsBlock(v))
    ensures Lacks(z', a, k + 1, v', product)
  {
    assert a[k..][1..] == a[k + 1..];
  }

  lemma LacksStart(x: Bytes16, y: Bytes16)
    ensures Lacks(ZeroBytes(16), ToBits(x), 0, y, Mul(AsBlock(x), AsBlock(y)))
  {
    ToBitsZero(16);
    XorZero(Mul(AsBlock(x), AsBlock(y)));
    assert ToBits(x)[0..] == ToBits(x);
  }

  lemma LacksEnd(z: Bytes16, a: Bits, v: Bytes16, product: Block)
    requires |a| == 128 && Lacks(z, a, 128, v, product)
    ensures z == FromBits(product)
  {
    assert a[128..] == [];
    XorZero(AsBlock(z));
    FromBitsToBits(z);
  }

  method GfMul128(x: array<Byte>, y: array<Byte>, out: array<Byte>)
    requires x.Length == y.Length == out.Length == 16
    modifies out
    ensures out[..] == GfMul(old(x[..]), old(y[..]))
  {
    hide Xor, MulX, ToBits, Lacks, Mul, FromBits, Bit, ByteBits;
    var z := new Byte[16];
    var v := new Byte[16];
    BytesZero(z, 16);
    BytesCopy(v, y, 16);
    ghost var x0 := x[..];
    ghost var a := ToBits(x0);
    ghost var product := Mul(AsBlock(x0), AsBlock(y[..]));
    assert z[..] == ZeroBytes(16) && v[..] == y[..];
    LacksStart(x0, y[..]);
    for i := 0 to 16
      invariant unchanged(x) && unchanged(out)
      invariant Lacks(z[..], a, 8 * i, v[..], product)
    {
      var xi := x[i];
      assert xi == x0[i];
      for bit := 8 downto 0
        invariant unchanged(x) && unchanged(out)
        invariant Lacks(z[..], a, 8 * i + 8 - bit, v[..], product)
      {
        var mask := (1 as Byte) << bit;
        MaskBit(xi, bit);
        BitOfBytes(x0, i, 7 - bit);
        ghost var z0, v0 := z[..], v[..];
        MulStep(z, v, xi & mask != 0);
        LacksStep(z0, v0, a, 8 * i + 7 - bit, product, z[..], v[..]);
      }
    }
    LacksEnd(z[..], a, v[..], product);
    BytesCopy(out, z, 16);
    assert out[..] == z[..];
  }

  /** Two sums with y have the same product with h exactly if h takes their difference to zero. */
  lemma DifferBy(h: Bytes16, y: Bytes16, f: Bytes16, s: Bytes16)
    ensures GfMul(XorBytes(y, f), h) == GfMul(XorBytes(y, s), h) <==> GfMul(XorBytes(f, s), h) == ZeroBytes(16)
  {
    hide Mul, Xor, XorBytes, ToBits, FromBits, ZeroBytes, Zeros;
    var hb, yb, fb, sb := AsBlock(h), AsBlock(y), AsBlock(f), AsBlock(s);
    var p, q := Mul(Xor(yb, fb), hb), Mul(Xor(yb, sb), hb);
    ToBitsXor(y, f);
    ToBitsXor(y, s);
    ToBitsXor(f, s);
    ToBitsZero(16);
    ToBitsFromBits(p);
    ToBitsFromBits(q);
    ToBitsFromBits(Mul(Xor(fb, sb), hb));
    FromBitsToBits(ZeroBytes(16));
    XorApart(p, q);
    MulBilinear(Xor(yb, fb), Xor(yb, sb), hb, hb);
    XorCancels(yb, fb, sb);
  }
}
