/** The snapshot signature's hash: FNV-1a over little-endian words, with the prime multiplied in by
    shifts and additions. */
module Fnv {
  import opened ByteValues
  import opened Words

  const OFFSET: U32 := 2166136261
  const PRIME: nat := 16777619

  /** The exclusive or of a word with a byte touches only the lowest byte of the word. */
  function XorLow(hash: U32, b: Byte): (r: U32)
    ensures r / 256 == hash / 256 && r % 256 == Val(Xor8(ByteOf(hash % 256), b))
  {
    hash / 256 * 256 + Val(Xor8(ByteOf(hash % 256), b))
  }

  /** One byte of FNV-1a. */
  function HashByte(hash: U32, b: Byte): U32 {
    Low32(XorLow(hash, b) * PRIME)
  }

  /** FNV-1a over a byte string, from a running value. */
  function HashBytes(hash: U32, s: seq<Byte>): U32
    decreases |s|
  {
    if s == [] then hash else HashBytes(HashByte(hash, s[0]), s[1..])
  }

  /** The published value of the hash of the letter a: the byte goes in before the multiplication. */
  lemma HashOfLetter()
    ensures HashBytes(OFFSET, [0x61]) == 0xe40c292c
  {
    hide XorLow;
    assert XorLow(OFFSET, 0x61) == 2166136228 by {
      LetterMixed();
    }
    assert HashByte(OFFSET, 0x61) == 0xe40c292c;
    assert [0x61][1..] == [];
  }

  lemma LetterMixed()
    ensures XorLow(OFFSET, 0x61) == 2166136228
  {
    assert OFFSET % 256 == 0xc5 && OFFSET / 256 == 8461469;
    ByteDetermined(ByteOf(0xc5), 0xc5);
    assert Xor8(0xc5, 0x61) == 0xa4;
  }

  // ---------------------------------------------------------------- shift and add

  function AddWords(a: U32, b: int): U32 {
    Low32(a + Low32(b))
  }

  /** The multiplication as the firmware does it: every shift and every sum wraps. */
  function ShiftAdd(h: U32): U32 {
    AddWords(AddWords(AddWords(AddWords(AddWords(h, 0x2 * h), 0x10 * h), 0x80 * h), 0x100 * h), 0x100_0000 * h)
  }

  lemma AddWordsLow(a: int, b: int)
    ensures AddWords(Low32(a), b) == Low32(a + b)
  {
  }

  lemma LowOfWord(h: U32)
    ensures Low32(h) == h
  {
  }

  /** Shifting and adding multiplies by the FNV prime modulo 2^32. */
  lemma ShiftAddIsPrime(h: U32)
    ensures ShiftAdd(h) == Low32(h * PRIME)
  {
    hide AddWords, Low32;
    LowOfWord(h);
    AddWordsLow(h, 0x2 * h);
    AddWordsLow(0x3 * h, 0x10 * h);
    AddWordsLow(0x13 * h, 0x80 * h);
    AddWordsLow(0x93 * h, 0x100 * h);
    AddWordsLow(0x193 * h, 0x100_0000 * h);
  }

  // ---------------------------------------------------------------- every step is a bijection

  /** 899433627 is the inverse of the prime modulo 2^32. */
  lemma PrimeInjective(g: U32, h: U32)
    requires Low32(g * PRIME) == Low32(h * PRIME)
    ensures g == h
  {
    var k := g * PRIME / 0x1_0000_0000 - h * PRIME / 0x1_0000_0000;
    var z := k * 899433627 - (g - h) * 3513497;
    assert g - h == z * 0x1_0000_0000;
  }

  /** For each byte the step is injective in the hash, and for each hash it is injective in the byte. */
  lemma XorLowInjective(g: U32, h: U32, a: Byte, b: Byte)
    requires XorLow(g, a) == XorLow(h, b)
    ensures g / 256 == h / 256 && Xor8(ByteOf(g % 256), a) == Xor8(ByteOf(h % 256), b)
  {
    hide XorLow, ByteOf, Val, Xor8;
    ByteDetermined(Xor8(ByteOf(g % 256), a), Xor8(ByteOf(h % 256), b));
  }

  lemma HashByteInjective(g: U32, h: U32, a: Byte, b: Byte)
    requires HashByte(g, a) == HashByte(h, b)
    ensures a == b ==> g == h
    ensures g == h ==> a == b
  {
    hide XorLow, ByteOf, Val, Xor8, Low32;
    PrimeInjective(XorLow(g, a), XorLow(h, b));
    XorLowInjective(g, h, a, b);
    var x, y := ByteOf(g % 256), ByteOf(h % 256);
    if a == b {
      Xor8Injective(x, y, a);
      assert g % 256 == Val(x) && Val(y) == h % 256;
    }
    if g == h {
      Xor8Injective(a, b, x);
    }
  }

  lemma {:induction false} HashBytesInjective(g: U32, h: U32, s: seq<Byte>)
    requires HashBytes(g, s) == HashBytes(h, s)
    ensures g == h
    decreases |s|
  {
    hide HashByte;
    if s != [] {
      HashBytesInjective(HashByte(g, s[0]), HashByte(h, s[0]), s[1..]);
      HashByteInjective(g, h, s[0], s[0]);
    }
  }

  /** Byte strings that differ in exactly one place have different hashes. */
  lemma {:induction false} OneByteDetected(hash: U32, s: seq<Byte>, t: seq<Byte>, i: nat)
    requires |s| == |t| && i < |s| && s[i] != t[i]
    requires forall k :: 0 <= k < |s| && k != i ==> s[k] == t[k]
    ensures HashBytes(hash, s) != HashBytes(hash, t)
    decreases i
  {
    hide HashByte;
    if i == 0 {
      assert s[1..] == t[1..];
      if HashBytes(hash, s) == HashBytes(hash, t) {
        HashBytesInjective(HashByte(hash, s[0]), HashByte(hash, t[0]), s[1..]);
        HashByteInjective(hash, hash, s[0], t[0]);
      }
    } else {
      OneByteDetected(HashByte(hash, s[0]), s[1..], t[1..], i - 1);
    }
  }

  // ---------------------------------------------------------------- words

  function LowByte(word: bv32): Byte {
    (word & 0xff) as Byte
  }

  function Rest(word: bv32): bv32 {
    word >> 8
  }

  /** The four bytes of a word, least significant first. */
  function LeBytes(word: bv32): (s: seq<Byte>)
    ensures |s| == 4
  {
    [LowByte(word), LowByte(Rest(word)), LowByte(Rest(Rest(word))), LowByte(Rest(Rest(Rest(word))))]
  }

  function Serialised(words: seq<bv32>): (s: seq<Byte>)
    ensures |s| == 4 * |words|
  {
    if words == [] then [] else LeBytes(words[0]) + Serialised(words[1..])
  }

  /** The bytes of a counter are its digits to the base 256, lowest first. */
  lemma CounterBytes(x: U32)
    ensures LeBytes(Bits(x)) == [WordByte(x, 0), WordByte(x, 1), WordByte(x, 2), WordByte(x, 3)]
  {
    hide WordByte;
    BytesOfFour(WordByte(x, 0), WordByte(x, 1), WordByte(x, 2), WordByte(x, 3));
  }

  lemma BytesOfFour(b0: Byte, b1: Byte, b2: Byte, b3: Byte)
    ensures LeBytes(FourBytes(b0, b1, b2, b3)) == [b0, b1, b2, b3]
  {
  }

  lemma {:induction false} HashConcat(hash: U32, a: seq<Byte>, b: seq<Byte>)
    ensures HashBytes(hash, a + b) == HashBytes(HashBytes(hash, a), b)
    decreases |a|
  {
    hide HashByte;
    if a == [] {
      assert a + b == b;
    } else {
      assert (a + b)[1..] == a[1..] + b;
      HashConcat(HashByte(hash, a[0]), a[1..], b);
    }
  }

  function Shifted(word: bv32, i: nat): bv32 {
    if i == 0 then word else Rest(Shifted(word, i - 1))
  }

  lemma ByteAt(word: bv32, i: nat)
    requires i < 4
    ensures LeBytes(word)[i] == LowByte(Shifted(word, i))
  {
    hide LowByte, Rest;
    assert Shifted(word, 1) == Rest(word);
    assert Shifted(word, 2) == Rest(Rest(word));
    assert Shifted(word, 3) == Rest(Rest(Rest(word)));
  }

  lemma ShiftedNext(word: bv32, i: nat)
    ensures Shifted(word, i + 1) == Rest(Shifted(word, i)) && Shifted(word, 0) == word
  {
  }

  /** signature_word: the loop peels the bytes off by shifting. */
  method SignatureWord(hash: U32, word: bv32) returns (r: U32)
    ensures r == HashBytes(hash, LeBytes(word))
  {
    hide HashByte, LeBytes, Shifted, LowByte, Rest;
    r := hash;
    var rest := word;
    ghost var bytes := LeBytes(word);
    assert bytes[0..] == bytes;
    ShiftedNext(word, 0);
    for i := 0 to 4
      invariant rest == Shifted(word, i)
      invariant HashBytes(r, bytes[i..]) == HashBytes(hash, bytes)
    {
      ByteAt(word, i);
      ShiftedNext(word, i);
      assert bytes[i..][0] == bytes[i] && bytes[i..][1..] == bytes[i + 1..];
      r := MixIn(r, LowByte(rest));
      rest := Rest(rest);
    }
    assert bytes[4..] == [];
  }

  method MixIn(hash: U32, b: Byte) returns (r: U32)
    ensures r == HashByte(hash, b)
  {
    hide ShiftAdd, XorLow;
    ShiftAddIsPrime(XorLow(hash, b));
    r := ShiftAdd(XorLow(hash, b));
  }
}
