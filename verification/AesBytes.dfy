/** The byte arithmetic of AES: the field GF(2^8) and the S-box table. */
module AesBytes {
  import opened ByteValues
  import opened Bytes

  /** Multiplication by x in GF(2^8) modulo x^8 + x^4 + x^3 + x + 1: section 4.2 of FIPS 197. */
  function Xtime(b: Byte): Byte {
    (b << 1) ^ Reduction(b)
  }

  function Reduction(b: Byte): Byte {
    if b & 0x80 != 0 then 0x1b else 0
  }

  /** The product in GF(2^8): the sum of x^k * b over the bits k of a. */
  function Times(a: Byte, b: Byte): Byte {
    var b1 := Xtime(b);
    var b2 := Xtime(b1);
    var b3 := Xtime(b2);
    var b4 := Xtime(b3);
    var b5 := Xtime(b4);
    var b6 := Xtime(b5);
    var b7 := Xtime(b6);
    (if a & 0x01 != 0 then b else 0) ^ (if a & 0x02 != 0 then b1 else 0) ^
    (if a & 0x04 != 0 then b2 else 0) ^ (if a & 0x08 != 0 then b3 else 0) ^
    (if a & 0x10 != 0 then b4 else 0) ^ (if a & 0x20 != 0 then b5 else 0) ^
    (if a & 0x40 != 0 then b6 else 0) ^ (if a & 0x80 != 0 then b7 else 0)
  }

  /** One row of a 256-byte table, picked by the low four bits of the index. */
  function Row(lo: Byte, r0: Byte, r1: Byte, r2: Byte, r3: Byte, r4: Byte, r5: Byte, r6: Byte, r7: Byte,
               r8: Byte, r9: Byte, ra: Byte, rb: Byte, rc: Byte, rd: Byte, re: Byte, rf: Byte): Byte
  {
    if lo < 8 then
      if lo < 4 then (if lo < 2 then (if lo < 1 then r0 else r1) else (if lo < 3 then r2 else r3))
      else (if lo < 6 then (if lo < 5 then r4 else r5) else (if lo < 7 then r6 else r7))
    else
      if lo < 12 then (if lo < 10 then (if lo < 9 then r8 else r9) else (if lo < 11 then ra else rb))
      else (if lo < 14 then (if lo < 13 then rc else rd) else (if lo < 15 then re else rf))
  }

  /** AES_SBOX as the firmware tabulates it. */
  function SubByte(b: Byte): Byte {
    var hi, lo := b >> 4, b & 0x0f;
    if hi < 8 then
      if hi < 4 then
        if hi < 2 then
          if hi < 1 then
            Row(lo, 0x63, 0x7c, 0x77, 0x7b, 0xf2, 0x6b, 0x6f, 0xc5, 0x30, 0x01, 0x67, 0x2b, 0xfe, 0xd7, 0xab, 0x76)
          else
            Row(lo, 0xca, 0x82, 0xc9, 0x7d, 0xfa, 0x59, 0x47, 0xf0, 0xad, 0xd4, 0xa2, 0xaf, 0x9c, 0xa4, 0x72, 0xc0)
        else
          if hi < 3 then
            Row(lo, 0xb7, 0xfd, 0x93, 0x26, 0x36, 0x3f, 0xf7, 0xcc, 0x34, 0xa5, 0xe5, 0xf1, 0x71, 0xd8, 0x31, 0x15)
          else
            Row(lo, 0x04, 0xc7, 0x23, 0xc3, 0x18, 0x96, 0x05, 0x9a, 0x07, 0x12, 0x80, 0xe2, 0xeb, 0x27, 0xb2, 0x75)
      else
        if hi < 6 then
          if hi < 5 then
            Row(lo, 0x09, 0x83, 0x2c, 0x1a, 0x1b, 0x6e, 0x5a, 0xa0, 0x52, 0x3b, 0xd6, 0xb3, 0x29, 0xe3, 0x2f, 0x84)
          else
            Row(lo, 0x53, 0xd1, 0x00, 0xed, 0x20, 0xfc, 0xb1, 0x5b, 0x6a, 0xcb, 0xbe, 0x39, 0x4a, 0x4c, 0x58, 0xcf)
        else
          if hi < 7 then
            Row(lo, 0xd0, 0xef, 0xaa, 0xfb, 0x43, 0x4d, 0x33, 0x85, 0x45, 0xf9, 0x02, 0x7f, 0x50, 0x3c, 0x9f, 0xa8)
          else
            Row(lo, 0x51, 0xa3, 0x40, 0x8f, 0x92, 0x9d, 0x38, 0xf5, 0xbc, 0xb6, 0xda, 0x21, 0x10, 0xff, 0xf3, 0xd2)
    else
      if hi < 12 then
        if hi < 10 then
          if hi < 9 then
            Row(lo, 0xcd, 0x0c, 0x13, 0xec, 0x5f, 0x97, 0x44, 0x17, 0xc4, 0xa7, 0x7e, 0x3d, 0x64, 0x5d, 0x19, 0x73)
          else
            Row(lo, 0x60, 0x81, 0x4f, 0xdc, 0x22, 0x2a, 0x90, 0x88, 0x46, 0xee, 0xb8, 0x14, 0xde, 0x5e, 0x0b, 0xdb)
        else
          if hi < 11 then
            Row(lo, 0xe0, 0x32, 0x3a, 0x0a, 0x49, 0x06, 0x24, 0x5c, 0xc2, 0xd3, 0xac, 0x62, 0x91, 0x95, 0xe4, 0x79)
          else
            Row(lo, 0xe7, 0xc8, 0x37, 0x6d, 0x8d, 0xd5, 0x4e, 0xa9, 0x6c, 0x56, 0xf4, 0xea, 0x65, 0x7a, 0xae, 0x08)
      else
        if hi < 14 then
          if hi < 13 then
            Row(lo, 0xba, 0x78, 0x25, 0x2e, 0x1c, 0xa6, 0xb4, 0xc6, 0xe8, 0xdd, 0x74, 0x1f, 0x4b, 0xbd, 0x8b, 0x8a)
          else
            Row(lo, 0x70, 0x3e, 0xb5, 0x66, 0x48, 0x03, 0xf6, 0x0e, 0x61, 0x35, 0x57, 0xb9, 0x86, 0xc1, 0x1d, 0x9e)
        else
          if hi < 15 then
            Row(lo, 0xe1, 0xf8, 0x98, 0x11, 0x69, 0xd9, 0x8e, 0x94, 0x9b, 0x1e, 0x87, 0xe9, 0xce, 0x55, 0x28, 0xdf)
          else
            Row(lo, 0x8c, 0xa1, 0x89, 0x0d, 0xbf, 0xe6, 0x42, 0x68, 0x41, 0x99, 0x2d, 0x0f, 0xb0, 0x54, 0xbb, 0x16)
  }

  /** The table read backwards. */
  function InvSubByte(b: Byte): Byte {
    var hi, lo := b >> 4, b & 0x0f;
    if hi < 8 then
      if hi < 4 then
        if hi < 2 then
          if hi < 1 then
            Row(lo, 0x52, 0x09, 0x6a, 0xd5, 0x30, 0x36, 0xa5, 0x38, 0xbf, 0x40, 0xa3, 0x9e, 0x81, 0xf3, 0xd7, 0xfb)
          else
            Row(lo, 0x7c, 0xe3, 0x39, 0x82, 0x9b, 0x2f, 0xff, 0x87, 0x34, 0x8e, 0x43, 0x44, 0xc4, 0xde, 0xe9, 0xcb)
        else
          if hi < 3 then
            Row(lo, 0x54, 0x7b, 0x94, 0x32, 0xa6, 0xc2, 0x23, 0x3d, 0xee, 0x4c, 0x95, 0x0b, 0x42, 0xfa, 0xc3, 0x4e)
          else
            Row(lo, 0x08, 0x2e, 0xa1, 0x66, 0x28, 0xd9, 0x24, 0xb2, 0x76, 0x5b, 0xa2, 0x49, 0x6d, 0x8b, 0xd1, 0x25)
      else
        if hi < 6 then
          if hi < 5 then
            Row(lo, 0x72, 0xf8, 0xf6, 0x64, 0x86, 0x68, 0x98, 0x16, 0xd4, 0xa4, 0x5c, 0xcc, 0x5d, 0x65, 0xb6, 0x92)
          else
            Row(lo, 0x6c, 0x70, 0x48, 0x50, 0xfd, 0xed, 0xb9, 0xda, 0x5e, 0x15, 0x46, 0x57, 0xa7, 0x8d, 0x9d, 0x84)
        else
          if hi < 7 then
            Row(lo, 0x90, 0xd8, 0xab, 0x00, 0x8c, 0xbc, 0xd3, 0x0a, 0xf7, 0xe4, 0x58, 0x05, 0xb8, 0xb3, 0x45, 0x06)
          else
            Row(lo, 0xd0, 0x2c, 0x1e, 0x8f, 0xca, 0x3f, 0x0f, 0x02, 0xc1, 0xaf, 0xbd, 0x03, 0x01, 0x13, 0x8a, 0x6b)
    else
      if hi < 12 then
        if hi < 10 then
          if hi < 9 then
            Row(lo, 0x3a, 0x91, 0x11, 0x41, 0x4f, 0x67, 0xdc, 0xea, 0x97, 0xf2, 0xcf, 0xce, 0xf0, 0xb4, 0xe6, 0x73)
          else
            Row(lo, 0x96, 0xac, 0x74, 0x22, 0xe7, 0xad, 0x35, 0x85, 0xe2, 0xf9, 0x37, 0xe8, 0x1c, 0x75, 0xdf, 0x6e)
        else
          if hi < 11 then
            Row(lo, 0x47, 0xf1, 0x1a, 0x71, 0x1d, 0x29, 0xc5, 0x89, 0x6f, 0xb7, 0x62, 0x0e, 0xaa, 0x18, 0xbe, 0x1b)
          else
            Row(lo, 0xfc, 0x56, 0x3e, 0x4b, 0xc6, 0xd2, 0x79, 0x20, 0x9a, 0xdb, 0xc0, 0xfe, 0x78, 0xcd, 0x5a, 0xf4)
      else
        if hi < 14 then
          if hi < 13 then
            Row(lo, 0x1f, 0xdd, 0xa8, 0x33, 0x88, 0x07, 0xc7, 0x31, 0xb1, 0x12, 0x10, 0x59, 0x27, 0x80, 0xec, 0x5f)
          else
            Row(lo, 0x60, 0x51, 0x7f, 0xa9, 0x19, 0xb5, 0x4a, 0x0d, 0x2d, 0xe5, 0x7a, 0x9f, 0x93, 0xc9, 0x9c, 0xef)
        else
          if hi < 15 then
            Row(lo, 0xa0, 0xe0, 0x3b, 0x4d, 0xae, 0x2a, 0xf5, 0xb0, 0xc8, 0xeb, 0xbb, 0x3c, 0x83, 0x53, 0x99, 0x61)
          else
            Row(lo, 0x17, 0x2b, 0x04, 0x7e, 0xba, 0x77, 0xd6, 0x26, 0xe1, 0x69, 0x14, 0x63, 0x55, 0x21, 0x0c, 0x7d)
  }

  function RotateLeft(b: Byte, n: Byte): Byte
    requires n < 8
  {
    (b << n) | (b >> (8 - n))
  }

  /** The affine transformation of section 5.1.1 of FIPS 197. */
  function Affine(b: Byte): Byte {
    b ^ RotateLeft(b, 1) ^ RotateLeft(b, 2) ^ RotateLeft(b, 3) ^ RotateLeft(b, 4) ^ 0x63
  }

  function InvAffine(s: Byte): Byte {
    RotateLeft(s, 1) ^ RotateLeft(s, 3) ^ RotateLeft(s, 6) ^ 0x05
  }

  lemma InverseOfLow(b: Byte)
    requires b < 0x40
    ensures b == 0 ==> InvAffine(SubByte(b)) == 0
    ensures b != 0 ==> Times(b, InvAffine(SubByte(b))) == 1
  {
  }

  lemma InverseOfNext(b: Byte)
    requires 0x40 <= b < 0x80
    ensures Times(b, InvAffine(SubByte(b))) == 1
  {
  }

  lemma InverseOfThird(b: Byte)
    requires 0x80 <= b < 0xc0
    ensures Times(b, InvAffine(SubByte(b))) == 1
  {
  }

  lemma InverseOfHigh(b: Byte)
    requires 0xc0 <= b
    ensures Times(b, InvAffine(SubByte(b))) == 1
  {
  }

  lemma AffineUndone(s: Byte)
    ensures Affine(InvAffine(s)) == s
  {
  }

  /** Every entry of the table is the affine image of the multiplicative inverse of its index,
      with 0 standing in for the inverse of 0. */
  lemma SubByteIsAffineInverse(b: Byte) returns (inverse: Byte)
    ensures SubByte(b) == Affine(inverse)
    ensures if b == 0 then inverse == 0 else Times(b, inverse) == 1
  {
    hide SubByte, Affine, InvAffine, Times;
    inverse := InvAffine(SubByte(b));
    AffineUndone(SubByte(b));
    if b < 0x40 {
      InverseOfLow(b);
    } else if b < 0x80 {
      InverseOfNext(b);
    } else if b < 0xc0 {
      InverseOfThird(b);
    } else {
      InverseOfHigh(b);
    }
  }

  lemma InvertsFrom00(b: Byte)
    requires b < 0x20
    ensures InvSubByte(SubByte(b)) == b
  {
  }

  lemma InvertsFrom20(b: Byte)
    requires 0x20 <= b < 0x40
    ensures InvSubByte(SubByte(b)) == b
  {
  }

  lemma InvertsFrom40(b: Byte)
    requires 0x40 <= b < 0x60
    ensures InvSubByte(SubByte(b)) == b
  {
  }

  lemma InvertsFrom60(b: Byte)
    requires 0x60 <= b < 0x80
    ensures InvSubByte(SubByte(b)) == b
  {
  }

  lemma InvertsFrom80(b: Byte)
    requires 0x80 <= b < 0xa0
    ensures InvSubByte(SubByte(b)) == b
  {
  }

  lemma InvertsFromA0(b: Byte)
    requires 0xa0 <= b < 0xc0
    ensures InvSubByte(SubByte(b)) == b
  {
  }

  lemma InvertsFromC0(b: Byte)
    requires 0xc0 <= b < 0xe0
    ensures InvSubByte(SubByte(b)) == b
  {
  }

  lemma InvertsFromE0(b: Byte)
    requires 0xe0 <= b
    ensures InvSubByte(SubByte(b)) == b
  {
  }

  /** The table is a permutation. */
  lemma SubByteInverts(b: Byte)
    ensures InvSubByte(SubByte(b)) == b
  {
    hide SubByte, InvSubByte;
    if b < 0x20 {
      InvertsFrom00(b);
    } else if b < 0x40 {
      InvertsFrom20(b);
    } else if b < 0x60 {
      InvertsFrom40(b);
    } else if b < 0x80 {
      InvertsFrom60(b);
    } else if b < 0xa0 {
      InvertsFrom80(b);
    } else if b < 0xc0 {
      InvertsFromA0(b);
    } else if b < 0xe0 {
      InvertsFromC0(b);
    } else {
      InvertsFromE0(b);
    }
  }

  /** Addition in GF(2^8). */
  function Plus(a: Byte, b: Byte): Byte {
    a ^ b
  }

  lemma ReductionLinear(a: Byte, b: Byte)
    ensures Reduction(a ^ b) == Reduction(a) ^ Reduction(b)
  {
    XorMasked(a, b, 0x80);
  }

  lemma XtimeLinear(a: Byte, b: Byte)
    ensures Xtime(Plus(a, b)) == Plus(Xtime(a), Xtime(b))
  {
    hide Reduction;
    ReductionLinear(a, b);
  }

  lemma SmallTimes(b: Byte)
    ensures Times(2, b) == Xtime(b)
    ensures Times(3, b) == Plus(Xtime(b), b)
  {
    hide Xtime;
  }
}
