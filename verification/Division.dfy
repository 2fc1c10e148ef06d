/** Shift-subtract division and decimal printing on unsigned machine words.

    `Word(w, x)` is what is left of x in a register of w bits.  The one shift that could lose a bit
    is written through it, so the contract also proves that it never does. */
module Division {

  function Pow2(n: nat): (p: nat)
    ensures p > 0
  {
    if n == 0 then 1 else 2 * Pow2(n - 1)
  }

  function Word(w: nat, x: nat): nat {
    if x < Pow2(w) then x else x % Pow2(w)
  }

  /** x shifted right by n places. */
  function Shr(x: nat, n: nat): nat {
    if n == 0 then x else Shr(x, n - 1) / 2
  }

  /** x shifted left by n places, without losing a bit. */
  function Shl(x: nat, n: nat): nat {
    if n == 0 then x else 2 * Shl(x, n - 1)
  }

  lemma {:induction false} ShrBound(x: nat, n: nat, w: nat)
    requires x < Pow2(w) && n <= w
    ensures Shr(x, n) < Pow2(w - n) <= Pow2(w)
  {
    if n > 0 {
      ShrBound(x, n - 1, w);
      assert Pow2(w - (n - 1)) == 2 * Pow2(w - n);
    }
  }

  lemma {:induction false} ShlTwice(x: nat, n: nat)
    ensures Shl(2 * x, n) == Shl(x, n + 1)
    ensures Shl(2 * x + 1, n) == Shl(x, n + 1) + Pow2(n)
  {
    if n > 0 {
      ShlTwice(x, n - 1);
    }
  }

  /** The place of the next quotient bit is still clear, so setting it adds its weight. */
  lemma {:induction false} BitClear(x: nat, n: nat)
    ensures Shr(Shl(x, n + 1), n) == 2 * x
  {
    if n > 0 {
      BitClear(x, n - 1);
      ShrOfDouble(Shl(x, n), n - 1);
    }
  }

  lemma {:induction false} ShrOfDouble(x: nat, n: nat)
    ensures Shr(2 * x, n + 1) == Shr(x, n)
  {
    if n > 0 {
      ShrOfDouble(x, n - 1);
    }
  }

  lemma OneFactorMore(a: nat, d: nat)
    ensures (a + 1) * d == a * d + d && a * d >= 0
  {
  }

  lemma {:induction false} MulLess(a: nat, b: nat, d: nat)
    requires a < b
    ensures a * d + d <= b * d
  {
    OneFactorMore(b - 1, d);
    if a < b - 1 {
      MulLess(a, b - 1, d);
    }
  }

  lemma Quotient(n: nat, d: nat, q: nat, r: nat)
    requires d > 0 && n == q * d + r && r < d
    ensures n / d == q && n % d == r
  {
    var x, y := n / d, n % d;
    assert n == x * d + y;
    if x < q {
      MulLess(x, q, d);
    } else if q < x {
      MulLess(q, x, d);
    }
  }

  /** How far the division has come when the bits from place i up are done: quot is the quotient of
      the part of the numerator read so far, and q holds it i places to the left. */
  ghost predicate Divided(num: nat, den: nat, i: nat, quot: nat, q: nat, r: nat) {
    && q == Shl(quot, i)
    && Shr(num, i) == quot * den + r
    && r < den
  }

  lemma {:induction false} ShlZero(n: nat)
    ensures Shl(0, n) == 0
  {
    if n > 0 {
      ShlZero(n - 1);
    }
  }

  lemma DividedStart(num: nat, den: nat, w: nat)
    requires num < Pow2(w) && den > 0
    ensures Divided(num, den, w, 0, 0, 0)
  {
    ShrBound(num, w, w);
    ShlZero(w);
  }

  lemma RemainderBelow(n: nat, product: nat, r: nat)
    requires n / 2 == product + r
    ensures 2 * r + n % 2 <= n
  {
  }

  /** The shifted remainder never outgrows the word, even for divisors with the top bit set: it is
      at most the part of the numerator read so far. */
  lemma NoOverflow(num: nat, den: nat, i: nat, quot: nat, q: nat, r: nat, w: nat)
    requires i < w && num < Pow2(w) && Divided(num, den, i + 1, quot, q, r)
    ensures 2 * r + Shr(num, i) % 2 < Pow2(w)
  {
    ShrBound(num, i, w);
    hide Pow2;
    OneFactorMore(quot, den);
    RemainderBelow(Shr(num, i), quot * den, r);
  }

  lemma Products(quot: nat, den: nat)
    ensures 2 * quot * den == 2 * (quot * den)
    ensures (2 * quot + 1) * den == 2 * (quot * den) + den
  {
  }

  lemma {:induction false} DividedStep(num: nat, den: nat, i: nat, quot: nat, q: nat, r: nat)
    requires Divided(num, den, i + 1, quot, q, r)
    ensures var r' := 2 * r + Shr(num, i) % 2;
      if r' >= den then Divided(num, den, i, 2 * quot + 1, q + Pow2(i), r' - den)
      else Divided(num, den, i, 2 * quot, q, r')
    ensures Shr(q, i) % 2 == 0
  {
    ShlTwice(quot, i);
    BitClear(quot, i);
    Products(quot, den);
  }

  /** udiv32 (w = 32) and udiv64 (w = 64): the true quotient and remainder for every divisor the
      word can hold; a zero divisor gives zeros. */
  method UDiv(w: nat, num: nat, den: nat) returns (q: nat, r: nat)
    requires num < Pow2(w) && den < Pow2(w)
    ensures den == 0 ==> q == 0 && r == 0
    ensures den > 0 ==> q == num / den && r == num % den
  {
    hide Pow2, Divided, Shr, Shl;
    q, r := 0, 0;
    if den == 0 {
      return;
    }
    ghost var quot: nat := 0;
    DividedStart(num, den, w);
    for i := w downto 0
      invariant Divided(num, den, i, quot, q, r)
    {
      DividedStep(num, den, i, quot, q, r);
      NoOverflow(num, den, i, quot, q, r, w);
      r := Word(w, 2 * r) + Shr(num, i) % 2;
      if r >= den {
        r := r - den;
        q := q + Pow2(i);
        quot := 2 * quot + 1;
      } else {
        quot := 2 * quot;
      }
    }
    DividedEnd(num, den, quot, q, r);
  }

  lemma DividedEnd(num: nat, den: nat, quot: nat, q: nat, r: nat)
    requires den > 0 && Divided(num, den, 0, quot, q, r)
    ensures q == num / den && r == num % den
  {
    Quotient(num, den, quot, r);
  }

  // ---------------------------------------------------------------- decimal numerals

  function Digit(n: nat): char
    requires n < 10
  {
    "0123456789"[n]
  }

  predicate IsDigit(c: char) {
    '0' <= c <= '9'
  }

  function DigitValue(c: char): nat
    requires IsDigit(c)
  {
    c as nat - '0' as nat
  }

  /** The number a string of digits denotes. */
  function NumeralValue(s: string): nat
    requires forall c :: c in s ==> IsDigit(c)
  {
    if s == [] then 0 else 10 * NumeralValue(s[..|s| - 1]) + DigitValue(s[|s| - 1])
  }

  /** A numeral: digits only, at least one, and no leading zero except for zero itself. */
  ghost predicate IsNumeral(s: string) {
    && s != []
    && (forall c :: c in s ==> IsDigit(c))
    && (s[0] == '0' ==> |s| == 1)
  }

  function Decimal(n: nat): (s: string) {
    if n < 10 then [Digit(n)] else Decimal(n / 10) + [Digit(n % 10)]
  }

  lemma DigitOfValue(n: nat)
    requires n < 10
    ensures IsDigit(Digit(n)) && DigitValue(Digit(n)) == n && (Digit(n) == '0' <==> n == 0)
  {
  }

  lemma DigitByValue(c: char)
    requires IsDigit(c)
    ensures DigitValue(c) < 10 && Digit(DigitValue(c)) == c
  {
  }

  lemma {:induction false} DecimalIsNumeral(n: nat)
    ensures IsNumeral(Decimal(n)) && NumeralValue(Decimal(n)) == n
    ensures Decimal(n)[0] == '0' <==> n == 0
  {
    hide Digit, DigitValue, IsDigit;
    if n < 10 {
      DigitOfValue(n);
      assert Decimal(n)[..0] == [];
    } else {
      DecimalIsNumeral(n / 10);
      DigitOfValue(n % 10);
      assert Decimal(n)[..|Decimal(n)| - 1] == Decimal(n / 10);
    }
  }

  /** There is only one numeral for each number. */
  lemma {:induction false} NumeralUnique(s: string)
    requires IsNumeral(s)
    ensures s == Decimal(NumeralValue(s))
    decreases |s|
  {
    hide Digit, DigitValue, IsDigit;
    var n := |s| - 1;
    DigitByValue(s[n]);
    if n == 0 {
      assert s[..0] == [];
      assert s == [s[0]];
    } else {
      NumeralUnique(s[..n]);
      var v := NumeralValue(s[..n]);
      DecimalIsNumeral(v);
      assert s[..n][0] == s[0];
      assert NumeralValue(s) / 10 == v && NumeralValue(s) % 10 == DigitValue(s[n]);
      assert s == s[..n] + [s[n]];
    }
  }

  lemma DecimalLength(n: nat)
    requires n < 0x1_0000_0000
    ensures |Decimal(n)| <= 10
  {
    Shorter(n, 10_000_000_000, 10);
  }

  lemma {:induction false} Shorter(n: nat, bound: nat, k: nat)
    requires 1 <= k <= 10 && n < bound && bound == Pow10(k)
    ensures |Decimal(n)| <= k
  {
    if n >= 10 {
      assert k > 1;
      Shorter(n / 10, bound / 10, k - 1);
    }
  }

  function Pow10(k: nat): nat {
    if k == 0 then 1 else 10 * Pow10(k - 1)
  }

  function Reversed(s: string): (r: string) {
    if s == [] then [] else Reversed(s[1..]) + [s[0]]
  }

  lemma {:induction false} ReversedPush(s: string, c: char)
    ensures Reversed(s + [c]) == [c] + Reversed(s)
  {
    if s == [] {
      assert ([] + [c])[1..] == [];
    } else {
      assert (s + [c])[1..] == s[1..] + [c];
      ReversedPush(s[1..], c);
    }
  }

  /** One turn of the digit loop: the last digit of what is left joins the buffer. */
  lemma DigitMoved(n: nat, buf: string)
    requires n > 0
    ensures Decimal(n) + Reversed(buf) ==
      (if n / 10 > 0 then Decimal(n / 10) else []) + Reversed(buf + [Digit(n % 10)])
  {
    hide Digit;
    ReversedPush(buf, Digit(n % 10));
    assert Decimal(n) == (if n / 10 > 0 then Decimal(n / 10) else []) + [Digit(n % 10)];
  }

  lemma Fits32(n: nat)
    requires n < 0x1_0000_0000
    ensures n < Pow2(32) && 10 < Pow2(32)
  {
    assert Pow2(8) == 0x100;
    assert Pow2(16) == 0x1_0000;
    assert Pow2(24) == 0x100_0000;
    assert Pow2(32) == 0x1_0000_0000;
  }

  /** uart_put_dec: the characters handed to the UART, in order. */
  method PutDec(val: nat) returns (sent: string)
    requires val < 0x1_0000_0000
    ensures sent == Decimal(val)
  {
    hide Pow2, Digit, Decimal, Reversed;
    if val == 0 {
      DecimalOfZero();
      return "0";
    }
    DecimalLength(val);
    var buf := new char[12];
    var idx := 0;
    var v := val;
    ReversedNone();
    while v > 0
      invariant idx <= 10 && v <= val
      invariant (if v > 0 then Decimal(v) else []) + Reversed(buf[..idx]) == Decimal(val)
      decreases v
    {
      ghost var before := buf[..idx];
      DigitMoved(v, before);
      NonEmpty(v);
      Fits32(v);
      var rem;
      v, rem := UDiv(32, v, 10);
      buf[idx] := Digit(rem);
      idx := idx + 1;
      assert buf[..idx] == before + [Digit(rem)];
      ReversedLength(before);
      ReversedLength(buf[..idx]);
    }
    sent := "";
    ghost var digits := buf[..idx];
    assert digits[idx..] == [];
    while idx > 0
      invariant idx <= |digits| <= 10
      invariant buf[..idx] == digits[..idx]
      invariant sent == Reversed(digits[idx..])
    {
      idx := idx - 1;
      assert buf[..idx + 1][idx] == digits[..idx + 1][idx];
      ReversedFirst(digits[idx..]);
      assert digits[idx..][1..] == digits[idx + 1..];
      sent := sent + [buf[idx]];
    }
    assert digits[0..] == digits;
  }

  lemma DecimalOfZero()
    ensures Decimal(0) == "0"
  {
  }

  lemma ReversedNone()
    ensures Reversed([]) == []
  {
  }

  lemma ReversedFirst(s: string)
    requires s != []
    ensures Reversed(s) == Reversed(s[1..]) + [s[0]]
  {
  }

  lemma {:induction false} ReversedLength(s: string)
    ensures |Reversed(s)| == |s|
  {
    if s != [] {
      ReversedLength(s[1..]);
    }
  }

  lemma NonEmpty(n: nat)
    ensures Decimal(n) != []
  {
  }
}
