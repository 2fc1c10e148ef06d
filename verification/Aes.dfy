/** AES-128 as FIPS 197 defines it, and the firmware's in-place arrays refining it.

    A state is sixteen bytes; row r of column c is byte r + 4 * c. */
module Aes {
  import opened ByteValues
  import opened Bytes
  import opened AesBytes

  // ---------------------------------------------------------------- the cipher of section 5.1

  function SubBytes(s: Bytes16): (r: Bytes16)
    ensures forall i :: 0 <= i < 16 ==> r[i] == SubByte(s[i])
  {
    seq(16, i requires 0 <= i < 16 => SubByte(s[i]))
  }

  /** Where the row rotation takes the byte in place i from. */
  function Source(i: nat): (j: nat)
    ensures j < 16
  {
    i % 4 + 4 * ((i / 4 + i % 4) % 4)
  }

  /** Row r moves r places to the left. */
  function ShiftRows(s: Bytes16): (r: Bytes16)
    ensures forall i :: 0 <= i < 16 ==> r[i] == s[Source(i)]
  {
    seq(16, i requires 0 <= i < 16 => s[Source(i)])
  }

  /** One byte of a mixed column, from itself and the bytes below it, cyclically. */
  function Mix(a: Byte, b: Byte, c: Byte, d: Byte): Byte {
    Plus(Plus(Plus(Times(2, a), Times(3, b)), c), d)
  }

  /** The index k rows below index i in the same column. */
  function Below(i: nat, k: nat): (j: nat)
    requires i < 16
    ensures j < 16
  {
    4 * (i / 4) + (i + k) % 4
  }

  function MixAt(s: Bytes16, i: nat): Byte
    requires i < 16
  {
    Mix(s[i], s[Below(i, 1)], s[Below(i, 2)], s[Below(i, 3)])
  }

  function MixColumns(s: Bytes16): (r: Bytes16)
    ensures forall i :: 0 <= i < 16 ==> r[i] == MixAt(s, i)
  {
    seq(16, i requires 0 <= i < 16 => MixAt(s, i))
  }

  type RoundKeys = s: seq<Byte> | |s| == 176 witness ZeroBytes(176)

  function RoundKey(rk: RoundKeys, round: nat): (k: Bytes16)
    requires round <= 10
  {
    rk[16 * round..16 * round + 16]
  }

  function Round(s: Bytes16, k: Bytes16): (r: Bytes16) {
    XorBytes(MixColumns(ShiftRows(SubBytes(s))), k)
  }

  function FinalRound(s: Bytes16, k: Bytes16): (r: Bytes16) {
    XorBytes(ShiftRows(SubBytes(s)), k)
  }

  /** The state after the initial key addition and n full rounds. */
  function Rounds(rk: RoundKeys, input: Bytes16, n: nat): (s: Bytes16)
    requires n <= 9
  {
    if n == 0 then XorBytes(input, RoundKey(rk, 0)) else Round(Rounds(rk, input, n - 1), RoundKey(rk, n))
  }

  function Cipher(rk: RoundKeys, input: Bytes16): (output: Bytes16) {
    FinalRound(Rounds(rk, input, 9), RoundKey(rk, 10))
  }

  // ---------------------------------------------------------------- the key schedule of section 5.2

  type Word = w: seq<Byte> | |w| == 4 witness ZeroBytes(4)

  function RotWord(w: Word): Word {
    [w[1], w[2], w[3], w[0]]
  }

  function SubWord(w: Word): Word {
    [SubByte(w[0]), SubByte(w[1]), SubByte(w[2]), SubByte(w[3])]
  }

  /** x^(j - 1) in GF(2^8). */
  function RconByte(j: nat): Byte
    requires j > 0
  {
    if j == 1 then 1 else Xtime(RconByte(j - 1))
  }

  function Rcon(j: nat): Word
    requires j > 0
  {
    [RconByte(j), 0, 0, 0]
  }

  /** Word i of the expanded key. */
  function KeyWord(key: Bytes16, i: nat): Word {
    if i < 4 then key[4 * i..4 * i + 4]
    else if i % 4 == 0 then XorBytes(KeyWord(key, i - 4), XorBytes(SubWord(RotWord(KeyWord(key, i - 1))), Rcon(i / 4)))
    else XorBytes(KeyWord(key, i - 4), KeyWord(key, i - 1))
  }

  function KeySchedule(key: Bytes16): (rk: RoundKeys)
    ensures forall k :: 0 <= k < 176 ==> rk[k] == KeyWord(key, k / 4)[k % 4]
  {
    seq(176, k requires 0 <= k < 176 => KeyWord(key, k / 4)[k % 4])
  }

  // ---------------------------------------------------------------- the block function is injective

  function Sum(a: Byte, b: Byte, c: Byte, d: Byte): Byte {
    Plus(Plus(a, b), Plus(c, d))
  }

  lemma MixCancel(xa: Byte, xb: Byte, a: Byte, b: Byte, c: Byte, d: Byte)
    ensures Plus(Plus(Plus(xa, Plus(xb, b)), c), d) == Plus(Plus(a, Sum(a, b, c, d)), Plus(xa, xb))
  {
  }

  lemma MixDifference(xa: Byte, xb: Byte, xc: Byte, a: Byte, b: Byte, c: Byte, d: Byte)
    ensures Plus(Plus(Plus(Plus(xa, Plus(xb, b)), c), d), Plus(Plus(Plus(xb, Plus(xc, c)), d), a))
         == Plus(Plus(a, b), Plus(xa, xc))
  {
  }

  /** A mixed byte is the byte, plus the column sum, plus x times the difference to the next byte. */
  lemma MixForm(a: Byte, b: Byte, c: Byte, d: Byte)
    ensures Mix(a, b, c, d) == Plus(Plus(a, Sum(a, b, c, d)), Xtime(Plus(a, b)))
    ensures Plus(Mix(a, b, c, d), Mix(b, c, d, a)) == Plus(Plus(a, b), Xtime(Plus(a, c)))
  {
    hide Xtime, Times, Plus, Sum;
    SmallTimes(a);
    SmallTimes(b);
    SmallTimes(c);
    XtimeLinear(a, b);
    XtimeLinear(a, c);
    MixCancel(Xtime(a), Xtime(b), a, b, c, d);
    MixDifference(Xtime(a), Xtime(b), Xtime(c), a, b, c, d);
  }

  lemma SumCancel(a: Byte, b: Byte, c: Byte, d: Byte, x: Byte)
    ensures Plus(Plus(Plus(a, b), x), Plus(Plus(c, d), x)) == Plus(Plus(a, b), Plus(c, d))
    ensures Plus(a, c) == Plus(c, a)
  {
  }

  lemma SumOfMixed(a: Byte, b: Byte, c: Byte, d: Byte)
    ensures Sum(Mix(a, b, c, d), Mix(b, c, d, a), Mix(c, d, a, b), Mix(d, a, b, c)) == Sum(a, b, c, d)
  {
    hide Xtime, Mix, Plus;
    MixForm(a, b, c, d);
    MixForm(c, d, a, b);
    SumCancel(a, b, c, d, Xtime(Plus(a, c)));
  }

  lemma MixTwiceCancel(a: Byte, s: Byte, x: Byte, y: Byte)
    ensures Plus(Plus(Plus(Plus(a, s), x), s), Plus(x, y)) == Plus(a, y)
  {
  }

  /** Mixing a column twice adds x^2 times the difference to the opposite byte. */
  lemma MixTwice(a: Byte, b: Byte, c: Byte, d: Byte)
    ensures Mix(Mix(a, b, c, d), Mix(b, c, d, a), Mix(c, d, a, b), Mix(d, a, b, c))
         == Plus(a, Xtime(Xtime(Plus(a, c))))
  {
    hide Xtime, Mix, Sum, Plus;
    MixForm(Mix(a, b, c, d), Mix(b, c, d, a), Mix(c, d, a, b), Mix(d, a, b, c));
    SumOfMixed(a, b, c, d);
    MixForm(a, b, c, d);
    XtimeLinear(Plus(a, b), Xtime(Plus(a, c)));
    MixTwiceCancel(a, Sum(a, b, c, d), Xtime(Plus(a, b)), Xtime(Xtime(Plus(a, c))));
  }

  lemma BelowBelow(i: nat, j: nat, k: nat)
    requires i < 16
    ensures Below(Below(i, j), k) == Below(i, j + k)
    ensures Below(i, 0) == i == Below(i, 4) && Below(i, 5) == Below(i, 1) && Below(i, 6) == Below(i, 2)
  {
  }

  lemma MixColumnsTwiceAt(s: Bytes16, i: nat)
    requires i < 16
    ensures MixColumns(MixColumns(s))[i] == Plus(s[i], Xtime(Xtime(Plus(s[i], s[Below(i, 2)]))))
  {
    hide Xtime, Mix, MixColumns, Below, Plus;
    BelowBelow(i, 1, 1);
    BelowBelow(i, 1, 2);
    BelowBelow(i, 1, 3);
    BelowBelow(i, 2, 1);
    BelowBelow(i, 2, 2);
    BelowBelow(i, 2, 3);
    BelowBelow(i, 3, 1);
    BelowBelow(i, 3, 2);
    BelowBelow(i, 3, 3);
    MixTwice(s[i], s[Below(i, 1)], s[Below(i, 2)], s[Below(i, 3)]);
  }

  lemma MixFourCancel(a: Byte, c: Byte, y: Byte)
    ensures Plus(Plus(a, y), Plus(c, y)) == Plus(a, c) == Plus(c, a)
    ensures Plus(Plus(a, y), y) == a
  {
  }

  lemma MixColumnsFourTimesAt(s: Bytes16, i: nat)
    requires i < 16
    ensures MixColumns(MixColumns(MixColumns(MixColumns(s))))[i] == s[i]
  {
    hide Xtime, MixColumns, Below, Plus;
    var m := MixColumns(MixColumns(s));
    var j := Below(i, 2);
    BelowBelow(i, 2, 2);
    MixColumnsTwiceAt(s, i);
    MixColumnsTwiceAt(s, j);
    MixColumnsTwiceAt(m, i);
    MixFourCancel(s[i], s[j], Xtime(Xtime(Plus(s[i], s[j]))));
  }

  /** Mixing the columns four times gives the state back: three times is the inverse. */
  lemma MixColumnsFourTimes(s: Bytes16)
    ensures MixColumns(MixColumns(MixColumns(MixColumns(s)))) == s
  {
    hide MixColumns;
    forall i | 0 <= i < 16
      ensures MixColumns(MixColumns(MixColumns(MixColumns(s))))[i] == s[i]
    {
      MixColumnsFourTimesAt(s, i);
    }
  }

  /** Where the row rotation moves the byte in place i. */
  function Moved(i: nat): (j: nat)
    ensures j < 16
  {
    i % 4 + 4 * ((i / 4 + 4 - i % 4) % 4)
  }

  lemma PlaceAt(r: nat, c: nat)
    requires r < 4 && c < 4
    ensures (r + 4 * c) % 4 == r && (r + 4 * c) / 4 == c
  {
  }

  lemma TurnedBack(r: nat, c: nat)
    requires r < 4 && c < 4
    ensures ((c + 4 - r) % 4 + r) % 4 == c
  {
    if c >= r {
      assert (c + 4 - r) % 4 == c - r;
    } else {
      assert (c + 4 - r) % 4 == c + 4 - r;
    }
  }

  lemma MovedBack(i: nat)
    requires i < 16
    ensures Source(Moved(i)) == i
  {
    var r, c := i % 4, i / 4;
    var d := (c + 4 - r) % 4;
    assert Moved(i) == r + 4 * d && i == r + 4 * c;
    PlaceAt(r, d);
    TurnedBack(r, c);
  }

  lemma ShiftRowsInjective(a: Bytes16, b: Bytes16)
    requires ShiftRows(a) == ShiftRows(b)
    ensures a == b
  {
    hide Source, Moved;
    forall i | 0 <= i < 16
      ensures a[i] == b[i]
    {
      MovedBack(i);
      assert ShiftRows(a)[Moved(i)] == ShiftRows(b)[Moved(i)];
    }
  }

  lemma SubBytesInjective(a: Bytes16, b: Bytes16)
    requires SubBytes(a) == SubBytes(b)
    ensures a == b
  {
    hide SubByte, InvSubByte, SubBytes;
    forall i | 0 <= i < 16
      ensures a[i] == b[i]
    {
      SubByteInverts(a[i]);
      SubByteInverts(b[i]);
      assert SubBytes(a)[i] == SubBytes(b)[i];
    }
  }

  lemma XorBytesInjective(a: seq<Byte>, b: seq<Byte>, k: seq<Byte>)
    requires |a| == |b| == |k| && XorBytes(a, k) == XorBytes(b, k)
    ensures a == b
  {
    hide XorBytes;
    forall i | 0 <= i < |a|
      ensures a[i] == b[i]
    {
      assert XorBytes(a, k)[i] == XorBytes(b, k)[i];
    }
  }

  lemma RoundInjective(a: Bytes16, b: Bytes16, k: Bytes16)
    requires Round(a, k) == Round(b, k)
    ensures a == b
  {
    hide XorBytes, MixColumns, ShiftRows, SubBytes;
    var x, y := ShiftRows(SubBytes(a)), ShiftRows(SubBytes(b));
    XorBytesInjective(MixColumns(x), MixColumns(y), k);
    MixColumnsFourTimes(x);
    MixColumnsFourTimes(y);
    ShiftRowsInjective(SubBytes(a), SubBytes(b));
    SubBytesInjective(a, b);
  }

  lemma {:induction false} RoundsInjective(rk: RoundKeys, a: Bytes16, b: Bytes16, n: nat)
    requires n <= 9 && Rounds(rk, a, n) == Rounds(rk, b, n)
    ensures a == b
  {
    hide XorBytes, Round;
    if n == 0 {
      XorBytesInjective(a, b, RoundKey(rk, 0));
    } else {
      RoundInjective(Rounds(rk, a, n - 1), Rounds(rk, b, n - 1), RoundKey(rk, n));
      RoundsInjective(rk, a, b, n - 1);
    }
  }

  /** Whatever the 176 round-key bytes are, different blocks have different images. */
  lemma CipherInjective(rk: RoundKeys, a: Bytes16, b: Bytes16)
    requires Cipher(rk, a) == Cipher(rk, b)
    ensures a == b
  {
    hide XorBytes, ShiftRows, SubBytes, Rounds;
    var x, y := Rounds(rk, a, 9), Rounds(rk, b, 9);
    XorBytesInjective(ShiftRows(SubBytes(x)), ShiftRows(SubBytes(y)), RoundKey(rk, 10));
    ShiftRowsInjective(SubBytes(x), SubBytes(y));
    SubBytesInjective(x, y);
    RoundsInjective(rk, a, b, 9);
  }

  // ---------------------------------------------------------------- the steps as the standard writes them

  /** Row r of the state is rotated r columns to the left: equation (5.3) of FIPS 197. */
  lemma ShiftRowsByRow(s: Bytes16, r: nat, c: nat)
    requires r < 4 && c < 4
    ensures ShiftRows(s)[r + 4 * c] == s[r + 4 * ((c + r) % 4)]
  {
    PlaceAt(r, c);
  }

  /** The coefficients of the fixed polynomial of section 5.1.3, lowest first. */
  function Coefficient(k: nat): Byte
    requires k < 4
  {
    match k
    case 0 => 2
    case 1 => 1
    case 2 => 1
    case 3 => 3
  }

  /** Coefficient i of the product, modulo x^4 + 1, of a column with the fixed polynomial. */
  function ColumnProduct(a: Byte, b: Byte, c: Byte, d: Byte, i: nat): Byte
    requires i < 4
  {
    Plus(Plus(Times(Coefficient(i), a), Times(Coefficient((i + 3) % 4), b)),
         Plus(Times(Coefficient((i + 2) % 4), c), Times(Coefficient((i + 1) % 4), d)))
  }

  /** Each column is multiplied by that polynomial. */
  lemma MixColumnsIsProduct(s: Bytes16, c: nat, i: nat)
    requires c < 4 && i < 4
    ensures MixColumns(s)[4 * c + i] == ColumnProduct(s[4 * c], s[4 * c + 1], s[4 * c + 2], s[4 * c + 3], i)
  {
    hide Times, Mix, MixColumns, ColumnProduct, MixAt;
    assert MixColumns(s)[4 * c + i] == MixAt(s, 4 * c + i);
    MixAtIs(s, c, i);
    MixIsProduct(s[4 * c], s[4 * c + 1], s[4 * c + 2], s[4 * c + 3], i);
  }

  lemma MixAtIs(s: Bytes16, col: nat, i: nat)
    requires col < 4 && i < 4
    ensures var a, b, c, d := s[4 * col], s[4 * col + 1], s[4 * col + 2], s[4 * col + 3];
      MixAt(s, 4 * col + i) ==
        match i
        case 0 => Mix(a, b, c, d)
        case 1 => Mix(b, c, d, a)
        case 2 => Mix(c, d, a, b)
        case 3 => Mix(d, a, b, c)
  {
    hide Mix, Below;
    BelowIs(col, i, 1);
    BelowIs(col, i, 2);
    BelowIs(col, i, 3);
  }

  lemma BelowIs(c: nat, i: nat, k: nat)
    requires c < 4 && i < 4 && k < 4
    ensures Below(4 * c + i, k) == 4 * c + (i + k) % 4
  {
  }

  lemma MixIsProduct(a: Byte, b: Byte, c: Byte, d: Byte, i: nat)
    requires i < 4
    ensures ColumnProduct(a, b, c, d, i) ==
      match i
      case 0 => Mix(a, b, c, d)
      case 1 => Mix(b, c, d, a)
      case 2 => Mix(c, d, a, b)
      case 3 => Mix(d, a, b, c)
  {
    hide Times, Plus;
    OnceIs(a);
    OnceIs(b);
    OnceIs(c);
    OnceIs(d);
    if i == 0 {
      Grouped(Times(2, a), Times(3, b), c, d);
    } else if i == 1 {
      Grouped(Times(2, b), Times(3, c), d, a);
      Turned(Times(2, b), Times(3, c), d, a);
    } else if i == 2 {
      Grouped(Times(2, c), Times(3, d), a, b);
      Swapped(Plus(Times(2, c), Times(3, d)), Plus(a, b));
    } else {
      Grouped(Times(2, d), Times(3, a), b, c);
      Turned(Times(2, d), Times(3, a), b, c);
      Swapped(Plus(c, Times(2, d)), Plus(Times(3, a), b));
    }
  }

  lemma OnceIs(b: Byte)
    ensures Times(1, b) == b
  {
    hide Xtime;
  }

  lemma Grouped(a: Byte, b: Byte, c: Byte, d: Byte)
    ensures Plus(Plus(Plus(a, b), c), d) == Plus(Plus(a, b), Plus(c, d))
  {
  }

  lemma Turned(a: Byte, b: Byte, c: Byte, d: Byte)
    ensures Plus(Plus(a, b), Plus(c, d)) == Plus(Plus(d, a), Plus(b, c))
  {
  }

  lemma Swapped(a: Byte, b: Byte)
    ensures Plus(a, b) == Plus(b, a)
  {
  }

  // ---------------------------------------------------------------- the firmware's steps

  method AddRoundKey(state: array<Byte>, rk: array<Byte>, round: nat)
    requires state.Length == 16 && rk.Length == 176 && round <= 10 && state != rk
    modifies state
    ensures state[..] == XorBytes(old(state[..]), RoundKey(rk[..], round))
  {
    hide XorBytes;
    ghost var key := RoundKey(rk[..], round);
    for i := 0 to 16
      invariant forall k :: 0 <= k < i ==> state[k] == old(state[k]) ^ key[k]
      invariant forall k :: i <= k < 16 ==> state[k] == old(state[k])
    {
      assert key[i] == rk[16 * round + i];
      state[i] := state[i] ^ rk[16 * round + i];
    }
  }

  method SubBytesInPlace(state: array<Byte>)
    requires state.Length == 16
    modifies state
    ensures state[..] == SubBytes(old(state[..]))
  {
    hide SubByte;
    for i := 0 to 16
      invariant forall k :: 0 <= k < i ==> state[k] == SubByte(old(state[k]))
      invariant forall k :: i <= k < 16 ==> state[k] == old(state[k])
    {
      state[i] := SubByte(state[i]);
    }
  }

  lemma ShiftRowsList(s: Bytes16, r: Bytes16)
    requires r[0] == s[0] && r[1] == s[5] && r[2] == s[10] && r[3] == s[15]
    requires r[4] == s[4] && r[5] == s[9] && r[6] == s[14] && r[7] == s[3]
    requires r[8] == s[8] && r[9] == s[13] && r[10] == s[2] && r[11] == s[7]
    requires r[12] == s[12] && r[13] == s[1] && r[14] == s[6] && r[15] == s[11]
    ensures r == ShiftRows(s)
  {
    hide Source;
    Sources();
  }

  lemma Sources()
    ensures Source(0) == 0 && Source(1) == 5 && Source(2) == 10 && Source(3) == 15
    ensures Source(4) == 4 && Source(5) == 9 && Source(6) == 14 && Source(7) == 3
    ensures Source(8) == 8 && Source(9) == 13 && Source(10) == 2 && Source(11) == 7
    ensures Source(12) == 12 && Source(13) == 1 && Source(14) == 6 && Source(15) == 11
  {
  }

  method ShiftRowsInPlace(state: array<Byte>)
    requires state.Length == 16
    modifies state
    ensures state[..] == ShiftRows(old(state[..]))
  {
    hide ShiftRows;
    ghost var s := state[..];
    var t := state[1];
    state[1] := state[5];
    state[5] := state[9];
    state[9] := state[13];
    state[13] := t;

    t := state[2];
    state[2] := state[10];
    state[10] := t;
    t := state[6];
    state[6] := state[14];
    state[14] := t;

    t := state[3];
    state[3] := state[15];
    state[15] := state[11];
    state[11] := state[7];
    state[7] := t;
    ShiftRowsList(s, state[..]);
  }

  lemma MixedByte0(x0: Byte, x1: Byte, a1: Byte, a2: Byte, a3: Byte)
    ensures x0 ^ (x1 ^ a1) ^ a2 ^ a3 == Plus(Plus(Plus(x0, Plus(x1, a1)), a2), a3)
  {
  }

  lemma MixedByte1(x1: Byte, x2: Byte, a2: Byte, a3: Byte, a0: Byte)
    ensures a0 ^ x1 ^ (x2 ^ a2) ^ a3 == Plus(Plus(Plus(x1, Plus(x2, a2)), a3), a0)
  {
  }

  lemma MixedByte2(x2: Byte, x3: Byte, a3: Byte, a0: Byte, a1: Byte)
    ensures a0 ^ a1 ^ x2 ^ (x3 ^ a3) == Plus(Plus(Plus(x2, Plus(x3, a3)), a0), a1)
  {
  }

  lemma MixedByte3(x3: Byte, x0: Byte, a0: Byte, a1: Byte, a2: Byte)
    ensures (x0 ^ a0) ^ a1 ^ a2 ^ x3 == Plus(Plus(Plus(x3, Plus(x0, a0)), a1), a2)
  {
  }

  lemma MixDef(a: Byte, b: Byte, c: Byte, d: Byte)
    ensures Plus(Plus(Plus(Xtime(a), Plus(Xtime(b), b)), c), d) == Mix(a, b, c, d)
  {
    hide Xtime, Times, Plus;
    SmallTimes(a);
    SmallTimes(b);
  }

  /** The four sums of the firmware are the four bytes of the mixed column. */
  method MixColumn(a0: Byte, a1: Byte, a2: Byte, a3: Byte) returns (b0: Byte, b1: Byte, b2: Byte, b3: Byte)
    ensures b0 == Mix(a0, a1, a2, a3) && b1 == Mix(a1, a2, a3, a0)
    ensures b2 == Mix(a2, a3, a0, a1) && b3 == Mix(a3, a0, a1, a2)
  {
    hide Xtime, Mix, Plus;
    var x0, x1, x2, x3 := Xtime(a0), Xtime(a1), Xtime(a2), Xtime(a3);
    b0 := x0 ^ (x1 ^ a1) ^ a2 ^ a3;
    b1 := a0 ^ x1 ^ (x2 ^ a2) ^ a3;
    b2 := a0 ^ a1 ^ x2 ^ (x3 ^ a3);
    b3 := (x0 ^ a0) ^ a1 ^ a2 ^ x3;
    MixedByte0(x0, x1, a1, a2, a3);
    MixedByte1(x1, x2, a2, a3, a0);
    MixedByte2(x2, x3, a3, a0, a1);
    MixedByte3(x3, x0, a0, a1, a2);
    MixDef(a0, a1, a2, a3);
    MixDef(a1, a2, a3, a0);
    MixDef(a2, a3, a0, a1);
    MixDef(a3, a0, a1, a2);
  }

  lemma BelowInColumn(c: nat, r: nat, k: nat)
    requires c < 4 && r < 4 && k < 4
    ensures Below(4 * c + r, k) == if r + k < 4 then 4 * c + r + k else 4 * c + r + k - 4
  {
    assert (4 * c + r) / 4 == c;
    assert (4 * c + r + k) % 4 == (r + k) % 4;
  }

  lemma ColumnAt(s: Bytes16, c: nat)
    requires c < 4
    ensures MixAt(s, 4 * c) == Mix(s[4 * c], s[4 * c + 1], s[4 * c + 2], s[4 * c + 3])
    ensures MixAt(s, 4 * c + 1) == Mix(s[4 * c + 1], s[4 * c + 2], s[4 * c + 3], s[4 * c])
    ensures MixAt(s, 4 * c + 2) == Mix(s[4 * c + 2], s[4 * c + 3], s[4 * c], s[4 * c + 1])
    ensures MixAt(s, 4 * c + 3) == Mix(s[4 * c + 3], s[4 * c], s[4 * c + 1], s[4 * c + 2])
  {
    hide Mix, Below;
    BelowInColumn(c, 0, 1);
    BelowInColumn(c, 0, 2);
    BelowInColumn(c, 0, 3);
    BelowInColumn(c, 1, 1);
    BelowInColumn(c, 1, 2);
    BelowInColumn(c, 1, 3);
    BelowInColumn(c, 2, 1);
    BelowInColumn(c, 2, 2);
    BelowInColumn(c, 2, 3);
    BelowInColumn(c, 3, 1);
    BelowInColumn(c, 3, 2);
    BelowInColumn(c, 3, 3);
  }

  method MixColumnsInPlace(state: array<Byte>)
    requires state.Length == 16
    modifies state
    ensures state[..] == MixColumns(old(state[..]))
  {
    hide Mix, MixColumns, MixAt;
    ghost var s := state[..];
    for c := 0 to 4
      invariant forall k :: 0 <= k < 4 * c ==> state[k] == MixAt(s, k)
      invariant forall k :: 4 * c <= k < 16 ==> state[k] == s[k]
    {
      var base := 4 * c;
      var b0, b1, b2, b3 := MixColumn(state[base], state[base + 1], state[base + 2], state[base + 3]);
      state[base] := b0;
      state[base + 1] := b1;
      state[base + 2] := b2;
      state[base + 3] := b3;
      ColumnAt(s, c);
    }
  }

  const RCON: seq<Byte> := [0x00, 0x01, 0x02, 0x04, 0x08, 0x10, 0x20, 0x40, 0x80, 0x1b, 0x36]

  /** The round-constant table holds the powers of x. */
  lemma RconTable(j: nat)
    requires 1 <= j <= 10
    ensures j < |RCON| && RCON[j] == RconByte(j)
  {
    if j > 1 {
      RconTable(j - 1);
      assert RCON[j] == Xtime(RCON[j - 1]);
    }
  }

  lemma SubRotAt(w: Word)
    ensures SubWord(RotWord(w))[0] == SubByte(w[1]) && SubWord(RotWord(w))[1] == SubByte(w[2])
    ensures SubWord(RotWord(w))[2] == SubByte(w[3]) && SubWord(RotWord(w))[3] == SubByte(w[0])
  {
    hide SubByte;
  }

  lemma RconAt(j: nat)
    requires j > 0
    ensures Rcon(j)[0] == RconByte(j) && Rcon(j)[1] == 0 && Rcon(j)[2] == 0 && Rcon(j)[3] == 0
  {
    hide RconByte;
  }

  lemma ScheduleWord(w: Word, r: Word, j: nat)
    requires j > 0 && r[0] == SubByte(w[1]) ^ RconByte(j)
    requires r[1] == SubByte(w[2]) && r[2] == SubByte(w[3]) && r[3] == SubByte(w[0])
    ensures r == XorBytes(SubWord(RotWord(w)), Rcon(j))
  {
    hide *;
    SubRotAt(w);
    RconAt(j);
  }

  /** aes128_key_expand, the branch taken once per round key. */
  method RotateAndSubstitute(temp: array<Byte>, rconIter: nat)
    requires temp.Length == 4 && 1 <= rconIter <= 10
    modifies temp
    ensures temp[..] == XorBytes(SubWord(RotWord(old(temp[..]))), Rcon(rconIter))
  {
    hide *;
    ghost var w := temp[..];
    var t := temp[0];
    temp[0] := temp[1];
    temp[1] := temp[2];
    temp[2] := temp[3];
    temp[3] := t;
    temp[0] := SubByte(temp[0]);
    temp[1] := SubByte(temp[1]);
    temp[2] := SubByte(temp[2]);
    temp[3] := SubByte(temp[3]);
    RconTable(rconIter);
    temp[0] := temp[0] ^ RCON[rconIter];
    ScheduleWord(w, temp[..], rconIter);
  }

  /** aes128_key_expand */
  method KeyExpand(key: array<Byte>, roundKey: array<Byte>)
    requires key.Length == 16 && roundKey.Length == 176
    modifies roundKey
    ensures roundKey[..] == KeySchedule(old(key[..]))
  {
    hide *;
    ghost var k0 := key[..];
    for i := 0 to 16
      invariant key[..] == k0
      invariant roundKey[..i] == k0[..i]
    {
      roundKey[i] := key[i];
    }
    FirstWords(k0, roundKey[..]);
    var temp := new Byte[4];
    var bytesGen := 16;
    var rconIter := 1;
    while bytesGen < 176
      invariant 16 <= bytesGen <= 176 && bytesGen % 4 == 0
      invariant rconIter == (bytesGen + 15) / 16
      invariant KeyPrefix(k0, roundKey[..], bytesGen / 4)
    {
      ExpandWord(k0, roundKey, bytesGen, rconIter, temp);
      rconIter := if bytesGen % 16 == 0 then rconIter + 1 else rconIter;
      bytesGen := bytesGen + 4;
    }
    WholeKey(k0, roundKey[..]);
  }

  lemma WordCount(bytesGen: nat, i: nat)
    requires bytesGen == 4 * i
    ensures bytesGen % 16 == 0 <==> i % 4 == 0
    ensures bytesGen % 16 == 0 ==> (bytesGen + 15) / 16 == i / 4
  {
  }

  /** aes128_key_expand, one turn of its while loop. */
  method ExpandWord(ghost key: Bytes16, roundKey: array<Byte>, bytesGen: nat, rconIter: nat, temp: array<Byte>)
    requires roundKey.Length == 176 && temp.Length == 4 && roundKey != temp
    requires 16 <= bytesGen < 176 && bytesGen % 4 == 0 && rconIter == (bytesGen + 15) / 16
    requires KeyPrefix(key, roundKey[..], bytesGen / 4)
    modifies roundKey, temp
    ensures KeyPrefix(key, roundKey[..], bytesGen / 4 + 1)
  {
    hide *;
    ghost var i, r0 := bytesGen / 4, roundKey[..];
    temp[0] := roundKey[bytesGen - 4];
    temp[1] := roundKey[bytesGen - 3];
    temp[2] := roundKey[bytesGen - 2];
    temp[3] := roundKey[bytesGen - 1];
    assert roundKey[..] == r0;
    LastWord(key, r0, i, temp[..]);
    WordCount(bytesGen, i);
    if bytesGen % 16 == 0 {
      RotateAndSubstitute(temp, rconIter);
      assert roundKey[..] == r0;
    }
    NextWord(key, i, temp[..]);
    AppendWord(roundKey, bytesGen, temp);
    GrownKey(key, i, temp[..], r0, roundKey[..]);
  }

  /** The first n words of r are those of the key schedule. */
  ghost predicate KeyPrefix(key: Bytes16, r: RoundKeys, n: nat) {
    forall k :: 0 <= k < 4 * n && k < 176 ==> r[k] == KeyWord(key, k / 4)[k % 4]
  }

  lemma FirstWords(key: Bytes16, r: RoundKeys)
    requires r[..16] == key
    ensures KeyPrefix(key, r, 4)
  {
    assert forall k :: 0 <= k < 16 ==> r[k] == r[..16][k];
  }

  lemma LastWord(key: Bytes16, r: RoundKeys, i: nat, w: Word)
    requires 4 <= i < 44 && KeyPrefix(key, r, i)
    requires w[0] == r[4 * i - 4] && w[1] == r[4 * i - 3] && w[2] == r[4 * i - 2] && w[3] == r[4 * i - 1]
    ensures w == KeyWord(key, i - 1)
  {
    hide KeyWord;
    assert (4 * i - 4) / 4 == i - 1 && (4 * i - 3) / 4 == i - 1 && (4 * i - 2) / 4 == i - 1 && (4 * i - 1) / 4 == i - 1;
  }

  /** The four bytes from n on are those sixteen places before, each with a byte of w added. */
  ghost predicate Appended(r0: RoundKeys, r1: RoundKeys, n: nat, w: Word)
    requires 16 <= n <= 172
  {
    && (forall k :: 0 <= k < 176 && !(n <= k < n + 4) ==> r1[k] == r0[k])
    && (forall k :: n <= k < n + 4 ==> r1[k] == r0[k - 16] ^ w[k - n])
  }

  lemma GrownKey(key: Bytes16, i: nat, w: Word, r0: RoundKeys, r1: RoundKeys)
    requires 4 <= i < 44 && KeyWord(key, i) == XorBytes(KeyWord(key, i - 4), w)
    requires KeyPrefix(key, r0, i)
    requires Appended(r0, r1, 4 * i, w)
    ensures KeyPrefix(key, r1, i + 1)
  {
    hide KeyWord, XorBytes;
    forall k | 0 <= k < 4 * (i + 1)
      ensures r1[k] == KeyWord(key, k / 4)[k % 4]
    {
      if k >= 4 * i {
        GrownByte(key, i, k - 4 * i, w, r0);
      }
    }
  }

  lemma GrownByte(key: Bytes16, i: nat, j: nat, w: Word, r: RoundKeys)
    requires 4 <= i < 44 && j < 4 && KeyWord(key, i) == XorBytes(KeyWord(key, i - 4), w) && KeyPrefix(key, r, i)
    ensures (4 * i + j) / 4 == i && (4 * i + j) % 4 == j
    ensures r[4 * i + j - 16] ^ w[j] == KeyWord(key, i)[j]
  {
    hide KeyWord;
    var k := 4 * i + j - 16;
    assert k / 4 == i - 4 && k % 4 == j;
    assert r[k] == KeyWord(key, k / 4)[k % 4];
  }

  lemma WholeKey(key: Bytes16, r: RoundKeys)
    requires KeyPrefix(key, r, 44)
    ensures r == KeySchedule(key)
  {
    hide KeyWord;
  }

  method AppendWord(roundKey: array<Byte>, bytesGen: nat, temp: array<Byte>)
    requires roundKey.Length == 176 && temp.Length == 4 && roundKey != temp
    requires 16 <= bytesGen <= 172
    modifies roundKey
    ensures Appended(old(roundKey[..]), roundKey[..], bytesGen, temp[..])
  {
    for i := 0 to 4
      invariant forall k :: 0 <= k < 176 && !(bytesGen <= k < bytesGen + i) ==> roundKey[k] == old(roundKey[k])
      invariant forall k :: bytesGen <= k < bytesGen + i ==>
        roundKey[k] == old(roundKey[k - 16]) ^ temp[k - bytesGen]
    {
      roundKey[bytesGen + i] := roundKey[bytesGen + i - 16] ^ temp[i];
    }
  }

  lemma NextWord(key: Bytes16, i: nat, temp: Word)
    requires i >= 4
    requires temp == if i % 4 == 0 then XorBytes(SubWord(RotWord(KeyWord(key, i - 1))), Rcon(i / 4))
      else KeyWord(key, i - 1)
    ensures KeyWord(key, i) == XorBytes(KeyWord(key, i - 4), temp)
  {
    hide SubWord, RotWord, Rcon;
  }

  lemma RoundsUnfold(rk: RoundKeys, input: Bytes16, n: nat)
    requires n <= 9
    ensures n == 0 ==> Rounds(rk, input, 0) == XorBytes(input, RoundKey(rk, 0))
    ensures n > 0 ==> Rounds(rk, input, n) == Round(Rounds(rk, input, n - 1), RoundKey(rk, n))
    ensures Cipher(rk, input) == FinalRound(Rounds(rk, input, 9), RoundKey(rk, 10))
  {
    hide SubBytes, ShiftRows, MixColumns, XorBytes, RoundKey;
  }

  // ---------------------------------------------------------------- the cipher of a key

  /** Column c of round key n is word 4 n + c of the schedule. */
  lemma RoundKeyWords(key: Bytes16, n: nat, c: nat)
    requires n <= 10 && c < 4
    ensures RoundKey(KeySchedule(key), n)[4 * c..4 * c + 4] == KeyWord(key, 4 * n + c)
  {
    hide KeyWord;
    var k, w := RoundKey(KeySchedule(key), n), KeyWord(key, 4 * n + c);
    forall j | 0 <= j < 4
      ensures k[4 * c + j] == w[j]
    {
      var i := 16 * n + (4 * c + j);
      assert i / 4 == 4 * n + c && i % 4 == j;
      assert KeySchedule(key)[i] == KeyWord(key, i / 4)[i % 4];
    }
  }

  /** Four words of the schedule, one after the other. */
  function FourWords(key: Bytes16, i: nat): (k: Bytes16) {
    KeyWord(key, i) + KeyWord(key, i + 1) + KeyWord(key, i + 2) + KeyWord(key, i + 3)
  }

  /** The cipher of section 5.1 with the key schedule of section 5.2: words 0 to 3, which are the key, are added
      first, and words 4 n to 4 n + 3 after round n. */
  function KeyedRounds(key: Bytes16, input: Bytes16, n: nat): (s: Bytes16) {
    if n == 0 then XorBytes(input, key)
    else XorBytes(MixColumns(ShiftRows(SubBytes(KeyedRounds(key, input, n - 1)))), FourWords(key, 4 * n))
  }

  lemma RoundKeyIs(key: Bytes16, n: nat)
    requires n <= 10
    ensures RoundKey(KeySchedule(key), n) == FourWords(key, 4 * n)
  {
    hide RoundKey, KeySchedule, KeyWord;
    var k := RoundKey(KeySchedule(key), n);
    RoundKeyWords(key, n, 0);
    RoundKeyWords(key, n, 1);
    RoundKeyWords(key, n, 2);
    RoundKeyWords(key, n, 3);
    assert k == k[0..4] + k[4..8] + k[8..12] + k[12..16];
  }

  lemma FirstWordsAreKey(key: Bytes16)
    ensures FourWords(key, 0) == key
  {
    assert key == key[0..4] + key[4..8] + key[8..12] + key[12..16];
  }

  lemma KeyedUnfold(key: Bytes16, input: Bytes16, n: nat)
    ensures KeyedRounds(key, input, n) == if n == 0 then XorBytes(input, key)
      else XorBytes(MixColumns(ShiftRows(SubBytes(KeyedRounds(key, input, n - 1)))), FourWords(key, 4 * n))
  {
    hide FourWords, XorBytes, MixColumns, ShiftRows, SubBytes;
  }

  lemma RoundIs(s: Bytes16, k: Bytes16)
    ensures Round(s, k) == XorBytes(MixColumns(ShiftRows(SubBytes(s))), k)
  {
    hide XorBytes, MixColumns, ShiftRows, SubBytes;
  }

  lemma {:induction false} RoundsAreKeyed(key: Bytes16, input: Bytes16, n: nat)
    requires n <= 9
    ensures Rounds(KeySchedule(key), input, n) == KeyedRounds(key, input, n)
  {
    hide *;
    RoundKeyIs(key, n);
    RoundsUnfold(KeySchedule(key), input, n);
    KeyedUnfold(key, input, n);
    if n == 0 {
      FirstWordsAreKey(key);
    } else {
      RoundsAreKeyed(key, input, n - 1);
      RoundIs(KeyedRounds(key, input, n - 1), FourWords(key, 4 * n));
    }
  }

  /** With an expanded key the key itself is added first, and words 40 to 43 last, without mixing columns. */
  lemma CipherIsKeyed(key: Bytes16, input: Bytes16)
    ensures Cipher(KeySchedule(key), input) ==
      XorBytes(ShiftRows(SubBytes(KeyedRounds(key, input, 9))), FourWords(key, 40))
  {
    hide Rounds, KeyedRounds, RoundKey, KeySchedule, FourWords, XorBytes, ShiftRows, SubBytes;
    RoundsUnfold(KeySchedule(key), input, 9);
    RoundsAreKeyed(key, input, 9);
    RoundKeyIs(key, 10);
  }

  /** One turn of its loop. */
  method RoundInPlace(state: array<Byte>, roundKey: array<Byte>, round: nat)
    requires state.Length == 16 && roundKey.Length == 176 && round <= 10 && state != roundKey
    modifies state
    ensures state[..] == Round(old(state[..]), RoundKey(roundKey[..], round))
  {
    hide SubBytes, ShiftRows, MixColumns, XorBytes, RoundKey;
    SubBytesInPlace(state);
    ShiftRowsInPlace(state);
    MixColumnsInPlace(state);
    AddRoundKey(state, roundKey, round);
  }

  /** What comes after it. */
  method FinalRoundInPlace(state: array<Byte>, roundKey: array<Byte>)
    requires state.Length == 16 && roundKey.Length == 176 && state != roundKey
    modifies state
    ensures state[..] == FinalRound(old(state[..]), RoundKey(roundKey[..], 10))
  {
    hide SubBytes, ShiftRows, XorBytes, RoundKey;
    SubBytesInPlace(state);
    ShiftRowsInPlace(state);
    AddRoundKey(state, roundKey, 10);
  }

  /** aes128_encrypt_block */
  method EncryptBlock(roundKey: array<Byte>, input: array<Byte>, output: array<Byte>)
    requires roundKey.Length == 176 && input.Length == output.Length == 16 && output != roundKey
    modifies output
    ensures output[..] == Cipher(roundKey[..], old(input[..]))
  {
    hide *;
    var state := new Byte[16];
    BytesCopy(state, input, 16);
    ghost var rk, block := roundKey[..], input[..];
    assert state[..] == block;
    RoundsUnfold(rk, block, 0);
    AddRoundKey(state, roundKey, 0);
    for round := 1 to 10
      invariant unchanged(roundKey) && unchanged(output)
      invariant state[..] == Rounds(rk, block, round - 1)
    {
      RoundsUnfold(rk, block, round);
      RoundInPlace(state, roundKey, round);
    }
    FinalRoundInPlace(state, roundKey);
    BytesCopy(output, state, 16);
    assert output[..] == state[..];
  }
}
