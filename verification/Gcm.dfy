/** AES-128-GCM: authenticated encryption and verified decryption over whole messages. */
module Gcm {
  import opened Bytes
  import opened ByteValues
  import opened Aes
  import opened GfBytes
  import opened Ghash

  type Iv = s: seq<Byte> | |s| == 12 witness ZeroBytes(12)

  /** The block with the IV and a 32-bit block count; J0 is count 1. */
  function CounterBlock(iv: Iv, n: nat): (b: Bytes16) {
    iv + Be(n % TWO_TO_32, 4)
  }

  function Keystream(rk: RoundKeys, iv: Iv, n: nat): (b: Bytes16) {
    Cipher(rk, CounterBlock(iv, n))
  }

  /** Byte k of the data meets byte k mod 16 of keystream block 2 + k / 16. */
  function CtrByte(rk: RoundKeys, iv: Iv, b: Byte, k: nat): Byte {
    b ^ Keystream(rk, iv, 2 + k / 16)[k % 16]
  }

  /** Counter mode, byte by byte. */
  function Ctr(rk: RoundKeys, iv: Iv, data: seq<Byte>): (r: seq<Byte>)
    ensures |r| == |data|
    ensures forall k :: 0 <= k < |data| ==> r[k] == CtrByte(rk, iv, data[k], k)
  {
    seq(|data|, k requires 0 <= k < |data| => CtrByte(rk, iv, data[k], k))
  }

  function Tag(rk: RoundKeys, iv: Iv, aad: seq<Byte>, ct: seq<Byte>): (t: Bytes16) {
    XorBytes(Keystream(rk, iv, 1), GhashValue(Cipher(rk, ZeroBytes(16)), FirmwareInput(aad, ct)))
  }

  datatype Sealed = Sealed(ct: seq<Byte>, tag: Bytes16)
  datatype Opened = Rejected | Accepted(pt: seq<Byte>)

  function Seal(key: Bytes16, iv: Iv, aad: seq<Byte>, pt: seq<Byte>): Sealed {
    var rk := KeySchedule(key);
    var ct := Ctr(rk, iv, pt);
    Sealed(ct, Tag(rk, iv, aad, ct))
  }

  function Open(key: Bytes16, iv: Iv, aad: seq<Byte>, ct: seq<Byte>, tag: Bytes16): Opened {
    var rk := KeySchedule(key);
    if tag == Tag(rk, iv, aad, ct) then Accepted(Ctr(rk, iv, ct)) else Rejected
  }

  // ---------------------------------------------------------------- what the mode promises

  lemma CtrTwice(rk: RoundKeys, iv: Iv, data: seq<Byte>)
    ensures Ctr(rk, iv, Ctr(rk, iv, data)) == data
  {
    hide Ctr, Keystream;
    forall k | 0 <= k < |data|
      ensures Ctr(rk, iv, Ctr(rk, iv, data))[k] == data[k]
    {
    }
  }

  /** Decryption undoes encryption for messages of every length, and a tag is accepted exactly
      when it is the one encryption computes for that ciphertext. */
  lemma RoundTrip(key: Bytes16, iv: Iv, aad: seq<Byte>, pt: seq<Byte>, tag: Bytes16)
    ensures var s := Seal(key, iv, aad, pt);
      Open(key, iv, aad, s.ct, tag) == if tag == s.tag then Accepted(pt) else Rejected
  {
    hide Ctr, Tag, KeySchedule;
    CtrTwice(KeySchedule(key), iv, pt);
  }

  /** Conversely, whatever `Open` accepts is what `Seal` makes of the plaintext it returns. */
  lemma OpenedWasSealed(key: Bytes16, iv: Iv, aad: seq<Byte>, ct: seq<Byte>, tag: Bytes16)
    requires Open(key, iv, aad, ct, tag).Accepted?
    ensures Seal(key, iv, aad, Open(key, iv, aad, ct, tag).pt) == Sealed(ct, tag)
  {
    hide Ctr, Tag, KeySchedule;
    CtrTwice(KeySchedule(key), iv, ct);
  }

  lemma CountersDiffer(iv: Iv, m: nat, n: nat)
    requires 1 <= m < n <= TWO_TO_32
    ensures CounterBlock(iv, m) != CounterBlock(iv, n)
  {
    hide Be, Value4;
    assert CounterBlock(iv, m)[12..] == Be(m % TWO_TO_32, 4) && CounterBlock(iv, n)[12..] == Be(n % TWO_TO_32, 4);
    ValueOfBe(m % TWO_TO_32);
    ValueOfBe(n % TWO_TO_32);
  }

  /** No keystream block of a message repeats, and none is the block that masks the tag: counts
      1 (the tag) to 2^32 give pairwise different blocks, whatever the round keys. */
  lemma KeystreamDistinct(rk: RoundKeys, iv: Iv, m: nat, n: nat)
    requires 1 <= m < n <= TWO_TO_32
    ensures Keystream(rk, iv, m) != Keystream(rk, iv, n)
  {
    hide Cipher, CounterBlock;
    CountersDiffer(iv, m, n);
    if Keystream(rk, iv, m) == Keystream(rk, iv, n) {
      CipherInjective(rk, CounterBlock(iv, m), CounterBlock(iv, n));
    }
  }

  // ---------------------------------------------------------------- the mode as the standard writes it

  /** Section 6.2 of NIST SP 800-38D: the last four bytes count up modulo 2^32, the others stay. */
  function Incremented(b: Bytes16): Bytes16 {
    b[..12] + Be((Value4(b[12..]) + 1) % TWO_TO_32, 4)
  }

  /** The block after i increments from J0, which is the IV and a one: step 2 of section 7.1. */
  function BlockAfter(iv: Iv, i: nat): Bytes16 {
    if i == 0 then iv + [0, 0, 0, 1] else Incremented(BlockAfter(iv, i - 1))
  }

  lemma {:induction false} CountersAreChained(iv: Iv, i: nat)
    ensures BlockAfter(iv, i) == CounterBlock(iv, i + 1)
  {
    hide Be, Value4;
    if i == 0 {
      FirstCounter(iv, BlockAfter(iv, 0));
    } else {
      CountersAreChained(iv, i - 1);
      var b := CounterBlock(iv, i);
      assert b[..12] == iv && b[12..] == Be(i % TWO_TO_32, 4);
      ValueOfBe(i % TWO_TO_32);
      NextModulo(i);
    }
  }

  lemma NextModulo(i: nat)
    ensures (i % TWO_TO_32 + 1) % TWO_TO_32 == (i + 1) % TWO_TO_32
  {
  }

  /** Steps 3 to 6 of section 7.1: block i of the data, counting from 0, is masked with the cipher of the block
      after i + 1 increments from J0, and the tag is masked with that of J0 itself. */
  lemma ModeOfStandard(rk: RoundKeys, iv: Iv, data: seq<Byte>, aad: seq<Byte>, k: nat)
    ensures k < |data| ==> Ctr(rk, iv, data)[k] == data[k] ^ Cipher(rk, BlockAfter(iv, k / 16 + 1))[k % 16]
    ensures Tag(rk, iv, aad, data) ==
      XorBytes(Cipher(rk, iv + [0, 0, 0, 1]), GhashValue(Cipher(rk, ZeroBytes(16)), FirmwareInput(aad, data)))
  {
    hide Cipher, CounterBlock, Incremented, GhashValue, FirmwareInput, XorBytes;
    CountersAreChained(iv, k / 16 + 1);
    CountersAreChained(iv, 0);
  }

  // ---------------------------------------------------------------- the counter

  function Value32(s: seq<Byte>): (n: nat)
    requires |s| == 16
  {
    Value4(s[12..])
  }

  /** Four digits to the base 256 that count up: the last one that is not 255 grows, and those after it are 0. */
  predicate CountsUp(b0: nat, b1: nat, b2: nat, b3: nat, a0: nat, a1: nat, a2: nat, a3: nat) {
    || (a0 == b0 && a1 == b1 && a2 == b2 && a3 == b3 + 1)
    || (a0 == b0 && a1 == b1 && a2 == b2 + 1 && b3 == 255 && a3 == 0)
    || (a0 == b0 && a1 == b1 + 1 && b2 == b3 == 255 && a2 == a3 == 0)
    || (a0 == b0 + 1 && b1 == b2 == b3 == 255 && a1 == a2 == a3 == 0)
    || (b0 == b1 == b2 == b3 == 255 && a0 == a1 == a2 == a3 == 0)
  }

  function Number(d0: nat, d1: nat, d2: nat, d3: nat): nat {
    0x100_0000 * d0 + 0x1_0000 * d1 + 0x100 * d2 + d3
  }

  lemma CountsUpByOne(b0: nat, b1: nat, b2: nat, b3: nat, a0: nat, a1: nat, a2: nat, a3: nat)
    requires a0 < 256 && a1 < 256 && a2 < 256 && a3 < 256 && CountsUp(b0, b1, b2, b3, a0, a1, a2, a3)
    ensures Number(a0, a1, a2, a3) == (Number(b0, b1, b2, b3) + 1) % TWO_TO_32
  {
    var n := Number(b0, b1, b2, b3) + 1;
    if b0 == b1 == b2 == b3 == 255 {
      assert n == TWO_TO_32 && Number(a0, a1, a2, a3) == 0;
    } else {
      CountsByOne(b0, b1, b2, b3, a0, a1, a2, a3);
      InWord(n);
    }
  }

  lemma CountsByOne(b0: nat, b1: nat, b2: nat, b3: nat, a0: nat, a1: nat, a2: nat, a3: nat)
    requires a0 < 256 && a1 < 256 && a2 < 256 && a3 < 256 && CountsUp(b0, b1, b2, b3, a0, a1, a2, a3)
    requires b0 != 255 || b1 != 255 || b2 != 255 || b3 != 255
    ensures Number(a0, a1, a2, a3) == Number(b0, b1, b2, b3) + 1 < TWO_TO_32
  {
  }

  lemma InWord(n: nat)
    requires n < TWO_TO_32
    ensures n % TWO_TO_32 == n
  {
  }

  /** The carry went through the bytes right of place i, and stopped there or ran out at i == 11. */
  lemma Counted(before: Bytes16, after: Bytes16, i: nat)
    requires 11 <= i <= 15
    requires i > 11 ==> Val(after[i]) == Val(before[i]) + 1
    requires forall k :: 12 <= k < i ==> after[k] == before[k]
    requires forall k :: i < k <= 15 ==> Val(before[k]) == 255 && Val(after[k]) == 0
    ensures Value32(after) == (Value32(before) + 1) % TWO_TO_32
  {
    Value32Is(before);
    Value32Is(after);
    hide Val, Value32, Number;
    CountsUpByOne(Val(before[12]), Val(before[13]), Val(before[14]), Val(before[15]),
      Val(after[12]), Val(after[13]), Val(after[14]), Val(after[15]));
  }

  lemma Value32Is(s: Bytes16)
    ensures Value32(s) == Number(Val(s[12]), Val(s[13]), Val(s[14]), Val(s[15]))
  {
    hide Val;
  }

  /** inc32_be: the four bytes count up as one big-endian number, wrapping at 2^32. */
  method Inc32(counter: array<Byte>)
    requires counter.Length == 16
    modifies counter
    ensures counter[..12] == old(counter[..12])
    ensures Value32(counter[..]) == (old(Value32(counter[..])) + 1) % TWO_TO_32
  {
    hide Val, Value32, Value4;
    ghost var before := counter[..];
    var i := 15;
    while i >= 12
      invariant 11 <= i <= 15
      invariant forall k :: 0 <= k <= i ==> counter[k] == before[k]
      invariant forall k :: i < k <= 15 ==> Val(before[k]) == 255 && Val(counter[k]) == 0
    {
      ByteIncrement(counter[i]);
      counter[i] := counter[i] + 1;
      if counter[i] != 0 {
        break;
      }
      i := i - 1;
    }
    Counted(before, counter[..], i);
  }

  lemma DigitsDetermined(a: nat, b: nat, c: nat, d: nat, a': nat, b': nat, c': nat, d': nat)
    requires a < 256 && b < 256 && c < 256 && d < 256 && a' < 256 && b' < 256 && c' < 256 && d' < 256
    requires 0x100_0000 * a + 0x1_0000 * b + 0x100 * c + d == 0x100_0000 * a' + 0x1_0000 * b' + 0x100 * c' + d'
    ensures a == a' && b == b' && c == c' && d == d'
  {
  }

  lemma Value4Injective(s: seq<Byte>, t: seq<Byte>)
    requires |s| == |t| == 4 && Value4(s) == Value4(t)
    ensures s == t
  {
    hide Val;
    DigitsDetermined(Val(s[0]), Val(s[1]), Val(s[2]), Val(s[3]), Val(t[0]), Val(t[1]), Val(t[2]), Val(t[3]));
    ByteDetermined(s[0], t[0]);
    ByteDetermined(s[1], t[1]);
    ByteDetermined(s[2], t[2]);
    ByteDetermined(s[3], t[3]);
  }

  lemma NextCounter(iv: Iv, n: nat, before: Bytes16, after: Bytes16)
    requires before == CounterBlock(iv, n) && after[..12] == before[..12]
    requires Value32(after) == (Value32(before) + 1) % TWO_TO_32
    ensures after == CounterBlock(iv, n + 1)
  {
    hide Be, Value4;
    assert before[12..] == Be(n % TWO_TO_32, 4);
    ValueOfBe(n % TWO_TO_32);
    ValueOfBe((n + 1) % TWO_TO_32);
    assert (n % TWO_TO_32 + 1) % TWO_TO_32 == (n + 1) % TWO_TO_32;
    Value4Injective(after[12..], Be((n + 1) % TWO_TO_32, 4));
    assert after == after[..12] + after[12..];
  }

  // ---------------------------------------------------------------- the firmware's messages

  lemma ChunkOfCtr(rk: RoundKeys, iv: Iv, data: seq<Byte>, off: nat, take: nat, stream: Bytes16)
    requires off % 16 == 0 && take <= 16 && off + take <= |data|
    requires stream == Keystream(rk, iv, 2 + off / 16)
    ensures forall k :: off <= k < off + take ==> Ctr(rk, iv, data)[k] == data[k] ^ stream[k - off]
  {
    hide Ctr, Keystream;
    forall k | off <= k < off + take
      ensures Ctr(rk, iv, data)[k] == data[k] ^ stream[k - off]
    {
    }
  }

  method XorChunk(src: array<Byte>, dst: array<Byte>, stream: array<Byte>, off: nat, take: nat)
    requires stream.Length == 16 && take <= 16 && off + take <= src.Length && off + take <= dst.Length
    requires dst != stream
    modifies dst
    ensures forall k :: off <= k < off + take ==> dst[k] == old(src[k]) ^ stream[k - off]
    ensures forall k :: 0 <= k < dst.Length && !(off <= k < off + take) ==> dst[k] == old(dst[k])
  {
    for i := 0 to take
      invariant forall k :: off <= k < off + i ==> dst[k] == old(src[k]) ^ stream[k - off]
      invariant forall k :: 0 <= k < dst.Length && !(off <= k < off + i) ==> dst[k] == old(dst[k])
    {
      dst[off + i] := src[off + i] ^ stream[i];
    }
  }

  /** After off bytes: the output so far, and what both buffers still hold from the start. */
  ghost predicate Progress(result: seq<Byte>, data: seq<Byte>, out: seq<Byte>, off: nat, src: seq<Byte>, dst: seq<Byte>)
    requires off <= |data| == |result| <= |src| && |result| <= |dst| == |out|
  {
    && (forall k :: 0 <= k < off ==> dst[k] == result[k])
    && (forall k :: off <= k < |dst| ==> dst[k] == out[k])
    && (forall k :: off <= k < |data| ==> src[k] == data[k])
  }

  lemma ChunkDone(result: seq<Byte>, data: seq<Byte>, out: seq<Byte>, off: nat, take: nat, stream: Bytes16,
                  src: seq<Byte>, dst: seq<Byte>, src': seq<Byte>, dst': seq<Byte>)
    requires off + take <= |data| == |result| <= |src| == |src'| && |result| <= |dst| == |out| == |dst'| && take <= 16
    requires Progress(result, data, out, off, src, dst)
    requires forall k :: off <= k < off + take ==> dst'[k] == src[k] ^ stream[k - off]
    requires forall k :: off <= k < off + take ==> result[k] == data[k] ^ stream[k - off]
    requires forall k :: 0 <= k < |dst| && !(off <= k < off + take) ==> dst'[k] == dst[k]
    requires src' == src || src' == dst'
    requires src' == src || src == dst
    ensures Progress(result, data, out, off + take, src', dst')
  {
  }

  /** The block loop of encryption and of decryption; source and destination may be one buffer. */
  method CtrLoop(roundKey: array<Byte>, ctr: array<Byte>, ghost iv: Iv, src: array<Byte>, dst: array<Byte>, len: nat)
    requires roundKey.Length == 176 && ctr.Length == 16 && ctr[..] == CounterBlock(iv, 2)
    requires len <= src.Length && len <= dst.Length
    requires roundKey != ctr && dst != roundKey && dst != ctr && src != ctr
    modifies ctr, dst
    ensures dst[..] == Ctr(roundKey[..], iv, old(src[..len])) + old(dst[len..])
  {
    hide *;
    ghost var rk, data, out := roundKey[..], src[..len], dst[..];
    ghost var result := Ctr(rk, iv, data);
    var stream := new Byte[16];
    var off := 0;
    ProgressStart(result, data, out, src[..], dst[..]);
    while off < len
      invariant off <= len && (off % 16 == 0 || off == len)
      invariant roundKey[..] == rk
      invariant off < len ==> ctr[..] == CounterBlock(iv, 2 + off / 16)
      invariant Progress(result, data, out, off, src[..], dst[..])
    {
      var take := len - off;
      if take > 16 {
        take := 16;
      }
      EncryptBlock(roundKey, ctr, stream);
      KeystreamIs(rk, iv, 2 + off / 16);
      ChunkOfCtr(rk, iv, data, off, take, stream[..]);
      ghost var src0, dst0, ctr0 := src[..], dst[..], ctr[..];
      XorChunk(src, dst, stream, off, take);
      ChunkDone(result, data, out, off, take, stream[..], src0, dst0, src[..], dst[..]);
      Inc32(ctr);
      NextCounter(iv, 2 + off / 16, ctr0, ctr[..]);
      off := off + take;
    }
    ProgressEnd(result, data, out, src[..], dst[..]);
  }

  lemma KeystreamIs(rk: RoundKeys, iv: Iv, n: nat)
    ensures Keystream(rk, iv, n) == Cipher(rk, CounterBlock(iv, n))
  {
  }

  lemma ProgressStart(result: seq<Byte>, data: seq<Byte>, out: seq<Byte>, src: seq<Byte>, dst: seq<Byte>)
    requires |data| == |result| <= |src| && |result| <= |dst| && out == dst && data == src[..|data|]
    ensures Progress(result, data, out, 0, src, dst)
  {
  }

  lemma ProgressEnd(result: seq<Byte>, data: seq<Byte>, out: seq<Byte>, src: seq<Byte>, dst: seq<Byte>)
    requires |data| == |result| <= |src| && |result| <= |dst| == |out|
    requires Progress(result, data, out, |data|, src, dst)
    ensures dst == result + out[|data|..]
  {
  }

  /** Both functions open alike: expand the key, and derive H and J0. */
  method Prepare(key: array<Byte>, iv: array<Byte>) returns (roundKey: array<Byte>, h: array<Byte>, j0: array<Byte>)
    requires key.Length == 16 && iv.Length == 12
    ensures fresh(roundKey) && fresh(h) && fresh(j0) && h != j0 && h != roundKey && j0 != roundKey
    ensures roundKey.Length == 176 && h.Length == j0.Length == 16
    ensures roundKey[..] == KeySchedule(key[..])
    ensures h[..] == Cipher(roundKey[..], ZeroBytes(16))
    ensures j0[..] == CounterBlock(iv[..], 1)
  {
    hide *;
    roundKey := new Byte[176];
    KeyExpand(key, roundKey);
    var zeros := new Byte[16];
    BytesZero(zeros, 16);
    assert zeros[..] == ZeroBytes(16);
    h := new Byte[16];
    EncryptBlock(roundKey, zeros, h);
    j0 := new Byte[16];
    BytesCopy(j0, iv, 12);
    assert j0[..12] == iv[..];
    j0[12] := 0;
    j0[13] := 0;
    j0[14] := 0;
    j0[15] := 1;
    FirstCounter(iv[..], j0[..]);
  }

  lemma FirstCounter(iv: Iv, j0: Bytes16)
    requires j0[..12] == iv && j0[12] == 0 && j0[13] == 0 && j0[14] == 0 && j0[15] == 1
    ensures j0 == CounterBlock(iv, 1)
  {
    hide Be;
    ValueOfBe(1);
    Value4Injective(j0[12..], Be(1, 4));
    assert j0 == j0[..12] + j0[12..];
  }

  /** The tag of a ciphertext that is already in place. */
  method ComputeTag(roundKey: array<Byte>, h: array<Byte>, j0: array<Byte>, ghost iv: Iv,
                    aad: array<Byte>, aadLen: nat, ct: array<Byte>, ctLen: nat, tag: array<Byte>)
    requires roundKey.Length == 176 && h.Length == j0.Length == tag.Length == 16
    requires h[..] == Cipher(roundKey[..], ZeroBytes(16)) && j0[..] == CounterBlock(iv, 1)
    requires aadLen <= aad.Length && aadLen < TWO_TO_32 && ctLen <= ct.Length && ctLen < TWO_TO_32
    modifies tag
    ensures tag[..] == Tag(old(roundKey[..]), iv, old(aad[..aadLen]), old(ct[..ctLen]))
  {
    hide *;
    ghost var rk, a, c := roundKey[..], aad[..aadLen], ct[..ctLen];
    var s := new Byte[16];
    var ej0 := new Byte[16];
    GhashBytes(h, aad, aadLen, ct, ctLen, s);
    EncryptBlock(roundKey, j0, ej0);
    KeystreamIs(rk, iv, 1);
    TagIs(rk, iv, a, c);
    ghost var s0, e0 := s[..], ej0[..];
    for i := 0 to 16
      invariant s[..] == s0 && ej0[..] == e0
      invariant forall k :: 0 <= k < i ==> tag[k] == e0[k] ^ s0[k]
    {
      tag[i] := ej0[i] ^ s[i];
    }
    assert tag[..] == XorBytes(e0, s0);
  }

  lemma TagIs(rk: RoundKeys, iv: Iv, aad: seq<Byte>, ct: seq<Byte>)
    ensures Tag(rk, iv, aad, ct)
         == XorBytes(Keystream(rk, iv, 1), GhashValue(Cipher(rk, ZeroBytes(16)), FirmwareInput(aad, ct)))
  {
  }

  /** The tag of section 7.1 of the standard. */
  function StandardTag(rk: RoundKeys, iv: Iv, aad: seq<Byte>, ct: seq<Byte>): (t: Bytes16) {
    XorBytes(Keystream(rk, iv, 1), GhashValue(Cipher(rk, ZeroBytes(16)), StandardInput(aad, ct)))
  }

  lemma XorTwice(k: Byte, a: Byte)
    ensures k ^ (k ^ a) == a
  {
  }

  lemma XorBytesTwice(k: Bytes16, a: Bytes16)
    ensures XorBytes(k, XorBytes(k, a)) == a
  {
    forall i | 0 <= i < 16
      ensures XorBytes(k, XorBytes(k, a))[i] == a[i]
    {
      XorTwice(k[i], a[i]);
    }
  }

  /** For every key and every length, the firmware's tag is the standard's exactly if the hash key takes the
      difference of the two length blocks to zero; below 2^29 bytes there is no difference. */
  lemma TagConforms(rk: RoundKeys, iv: Iv, aad: seq<Byte>, ct: seq<Byte>)
    ensures var h := Cipher(rk, ZeroBytes(16));
      Tag(rk, iv, aad, ct) == StandardTag(rk, iv, aad, ct) <==>
        GfMul(XorBytes(FirmwareLengths(|aad|, |ct|), StandardLengths(|aad|, |ct|)), h) == ZeroBytes(16)
    ensures |aad| < 0x2000_0000 && |ct| < 0x2000_0000 ==> Tag(rk, iv, aad, ct) == StandardTag(rk, iv, aad, ct)
  {
    hide Keystream, Cipher, GhashValue, FirmwareInput, StandardInput, XorBytes, GfMul, ZeroBytes;
    hide FirmwareLengths, StandardLengths;
    var h := Cipher(rk, ZeroBytes(16));
    if |aad| < 0x2000_0000 && |ct| < 0x2000_0000 {
      LengthsConform(aad, ct);
    }
    HashConforms(h, aad, ct);
    XorBytesTwice(Keystream(rk, iv, 1), GhashValue(h, FirmwareInput(aad, ct)));
    XorBytesTwice(Keystream(rk, iv, 1), GhashValue(h, StandardInput(aad, ct)));
  }

  /** sw_aes_gcm_encrypt_128.  Any of the buffers may be the same: the text may be encrypted in place; if
      the associated data shares the ciphertext's buffer it is authenticated as overwritten; and a tag
      that shares it replaces the ciphertext. */
  method Encrypt128(key: array<Byte>, iv: array<Byte>, aad: array<Byte>, aadLen: nat,
                    pt: array<Byte>, ptLen: nat, ct: array<Byte>, tag: array<Byte>)
    requires key.Length == 16 && iv.Length == 12 && tag.Length == 16
    requires aadLen <= aad.Length && aadLen < TWO_TO_32
    requires ptLen <= pt.Length && ptLen <= ct.Length && ptLen < TWO_TO_32
    modifies ct, tag
    ensures ct != aad && ct != tag ==>
      Sealed(ct[..ptLen], tag[..]) == Seal(old(key[..]), old(iv[..]), old(aad[..aadLen]), old(pt[..ptLen]))
    ensures var c := Ctr(KeySchedule(old(key[..])), old(iv[..]), old(pt[..ptLen]));
      var after := c + old(ct[ptLen..]);
      && (ct != tag ==> ct[..] == after)
      && tag[..] == Tag(KeySchedule(old(key[..])), old(iv[..]),
                       if aad == ct then after[..aadLen] else old(aad[..aadLen]), c)
  {
    hide *;
    ghost var k0, iv0, a, data, out := key[..], iv[..], aad[..aadLen], pt[..ptLen], ct[..];
    var roundKey, h, j0 := Prepare(key, iv);
    var ctr := new Byte[16];
    BytesCopy(ctr, j0, 16);
    ghost var before := ctr[..];
    assert before == j0[..];
    Inc32(ctr);
    NextCounter(iv0, 1, before, ctr[..]);
    ghost var rk := roundKey[..];
    assert pt[..ptLen] == data && ct[..] == out;
    CtrLoop(roundKey, ctr, iv0, pt, ct, ptLen);
    ghost var sealed := Ctr(rk, iv0, data);
    ghost var after := sealed + out[ptLen..];
    assert ct[..] == after && ct[..ptLen] == sealed;
    ghost var seen := if aad == ct then after[..aadLen] else a;
    assert roundKey[..] == rk && aad[..aadLen] == seen;
    ComputeTag(roundKey, h, j0, iv0, aad, aadLen, ct, ptLen, tag);
    SealIs(k0, iv0, a, data);
    assert ct != tag ==> ct[..] == after && ct[..ptLen] == sealed;
  }

  lemma SealIs(key: Bytes16, iv: Iv, aad: seq<Byte>, pt: seq<Byte>)
    ensures var rk := KeySchedule(key);
      Seal(key, iv, aad, pt) == Sealed(Ctr(rk, iv, pt), Tag(rk, iv, aad, Ctr(rk, iv, pt)))
  {
  }

  /** sw_aes_gcm_decrypt_verify_128: plaintext leaves only for the right tag; for any other tag the
      output is all zero. */
  method DecryptVerify128(key: array<Byte>, iv: array<Byte>, aad: array<Byte>, aadLen: nat,
                          ct: array<Byte>, ctLen: nat, tagIn: array<Byte>, ptOut: array<Byte>) returns (ok: bool)
    requires key.Length == 16 && iv.Length == 12 && tagIn.Length == 16
    requires aadLen <= aad.Length && aadLen < TWO_TO_32
    requires ctLen <= ct.Length && ctLen <= ptOut.Length && ctLen < TWO_TO_32
    modifies ptOut
    ensures ptOut[ctLen..] == old(ptOut[ctLen..])
    ensures var verdict := Open(old(key[..]), old(iv[..]), old(aad[..aadLen]), old(ct[..ctLen]), old(tagIn[..]));
      if ok then verdict == Accepted(ptOut[..ctLen]) else verdict == Rejected && ptOut[..ctLen] == ZeroBytes(ctLen)
  {
    hide *;
    ghost var k0, iv0, a, data, out, t := key[..], iv[..], aad[..aadLen], ct[..ctLen], ptOut[..], tagIn[..];
    var roundKey, h, j0 := Prepare(key, iv);
    ghost var rk := roundKey[..];
    var tagExp := new Byte[16];
    ComputeTag(roundKey, h, j0, iv0, aad, aadLen, ct, ctLen, tagExp);
    OpenIs(k0, iv0, a, data, t);
    assert tagExp[..16] == tagExp[..] && tagIn[..16] == t;
    var equal := BytesEqual(tagExp, tagIn, 16);
    if !equal {
      BytesZero(ptOut, ctLen);
      return false;
    }
    var ctr := new Byte[16];
    BytesCopy(ctr, j0, 16);
    ghost var before := ctr[..];
    assert before == j0[..];
    Inc32(ctr);
    NextCounter(iv0, 1, before, ctr[..]);
    assert ct[..ctLen] == data && ptOut[..] == out && roundKey[..] == rk;
    CtrLoop(roundKey, ctr, iv0, ct, ptOut, ctLen);
    return true;
  }

  lemma OpenIs(key: Bytes16, iv: Iv, aad: seq<Byte>, ct: seq<Byte>, tag: Bytes16)
    ensures var rk := KeySchedule(key);
      Open(key, iv, aad, ct, tag) == if tag == Tag(rk, iv, aad, ct) then Accepted(Ctr(rk, iv, ct)) else Rejected
  {
  }
}
