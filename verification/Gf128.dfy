/** The field multiplication of Galois/Counter Mode as mathematics.

    A block is the list of the 128 coefficients of a polynomial over GF(2): index i holds the
    coefficient of x^i.  This is the reflected bit order of section 6.3 of NIST SP 800-38D,
    where bit 0 is the leftmost bit of the first byte.

    `Mul` is the shift-and-add product that the firmware loop refines.  It is proved equal to
    the textbook product of two polynomials followed by long division by
    x^128 + x^7 + x^2 + x + 1, and to make blocks a commutative ring. */
module Gf128 {

  type Bits = seq<bool>
  type Block = b: Bits | |b| == 128 witness Zeros(128)

  /** The polynomial 0 with n coefficients. */
  function Zeros(n: nat): (z: Bits)
    ensures |z| == n && forall i :: 0 <= i < n ==> !z[i]
  {
    seq(n, i => false)
  }

  /** Addition of polynomials with equally many coefficients. */
  function Xor(a: Bits, b: Bits): (c: Bits)
    requires |a| == |b|
    ensures |c| == |a| && forall i :: 0 <= i < |c| ==> c[i] == (a[i] != b[i])
  {
    seq(|a|, i requires 0 <= i < |a| => a[i] != b[i])
  }

  /** The polynomial 1. */
  function One(): (r: Block) {
    [true] + Zeros(127)
  }

  /** 1 + x + x^2 + x^7, the value of x^128 modulo the field polynomial. */
  function Tail(): (r: Block)
    ensures r[0]
  {
    [true, true, true, false, false, false, false, true] + Zeros(120)
  }

  /** Multiplication by x: the whole block moves one place to the right, and the coefficient
      that leaves at x^128 comes back as `Tail`. */
  function MulX(v: Block): (r: Block) {
    var shifted := [false] + v[..127];
    if v[127] then Xor(shifted, Tail()) else shifted
  }

  function Select(c: bool, v: Block): (r: Block) {
    if c then v else Zeros(128)
  }

  /** The sum of a[i] * x^i * v over all i. */
  function MulBits(a: Bits, v: Block): (r: Block) {
    if a == [] then Zeros(128) else Xor(Select(a[0], v), MulBits(a[1..], MulX(v)))
  }

  function Mul(x: Block, y: Block): (r: Block) {
    MulBits(x, y)
  }

  // ---------------------------------------------------------------- addition is a group

  lemma XorZero(a: Bits)
    ensures Xor(a, Zeros(|a|)) == a == Xor(Zeros(|a|), a)
  {
  }

  lemma XorSelf(a: Bits)
    ensures Xor(a, a) == Zeros(|a|)
  {
  }

  /** (a + b) + (c + d) == (a + c) + (b + d). */
  lemma XorSwap(a: Bits, b: Bits, c: Bits, d: Bits)
    requires |a| == |b| == |c| == |d|
    ensures Xor(Xor(a, b), Xor(c, d)) == Xor(Xor(a, c), Xor(b, d))
  {
  }

  lemma XorApart(p: Bits, q: Bits)
    requires |p| == |q|
    ensures p == q <==> Xor(p, q) == Zeros(|p|)
  {
    if Xor(p, q) == Zeros(|p|) {
      forall k | 0 <= k < |p|
        ensures p[k] == q[k]
      {
        assert Xor(p, q)[k] == Zeros(|p|)[k];
      }
    }
  }

  lemma XorCancels(y: Bits, f: Bits, s: Bits)
    requires |y| == |f| == |s|
    ensures Xor(Xor(y, f), Xor(y, s)) == Xor(f, s)
  {
  }

  // ---------------------------------------------------------------- Mul is bilinear

  lemma MulXAt(v: Block)
    ensures forall i :: 0 <= i < 128 ==> MulX(v)[i] == ((i > 0 && v[i - 1]) != (v[127] && Tail()[i]))
  {
    hide Tail, Xor;
  }

  lemma MulXZero()
    ensures MulX(Zeros(128)) == Zeros(128)
  {
    hide Tail;
  }

  lemma MulXLinear(u: Block, v: Block)
    ensures MulX(Xor(u, v)) == Xor(MulX(u), MulX(v))
  {
    hide MulX, Tail, Xor;
    MulXAt(u);
    MulXAt(v);
    MulXAt(Xor(u, v));
  }

  lemma {:induction false} MulBitsZero(a: Bits)
    ensures MulBits(a, Zeros(128)) == Zeros(128)
  {
    hide Xor, MulX, Zeros;
    if a != [] {
      MulXZero();
      MulBitsZero(a[1..]);
      XorZero(Zeros(128));
    }
  }

  lemma {:induction false} MulBitsRightLinear(a: Bits, u: Block, v: Block)
    ensures MulBits(a, Xor(u, v)) == Xor(MulBits(a, u), MulBits(a, v))
  {
    hide Xor, MulX, Zeros;
    if a == [] {
      XorZero(Zeros(128));
    } else {
      MulXLinear(u, v);
      MulBitsRightLinear(a[1..], MulX(u), MulX(v));
      XorZero(Zeros(128));
      XorSwap(Select(a[0], u), Select(a[0], v), MulBits(a[1..], MulX(u)), MulBits(a[1..], MulX(v)));
    }
  }

  lemma {:induction false} MulBitsLeftLinear(a: Bits, b: Bits, v: Block)
    requires |a| == |b|
    ensures MulBits(Xor(a, b), v) == Xor(MulBits(a, v), MulBits(b, v))
  {
    hide Xor, MulX, Zeros;
    if a == [] {
      XorZero(Zeros(128));
    } else {
      assert Xor(a, b)[1..] == Xor(a[1..], b[1..]);
      MulBitsLeftLinear(a[1..], b[1..], MulX(v));
      XorSwap(Select(a[0], v), Select(b[0], v), MulBits(a[1..], MulX(v)), MulBits(b[1..], MulX(v)));
      XorSelf(v);
      XorZero(v);
      XorZero(Zeros(128));
    }
  }

  /** The product is bilinear over addition. */
  lemma MulBilinear(x: Block, x': Block, y: Block, y': Block)
    ensures Mul(Xor(x, x'), y) == Xor(Mul(x, y), Mul(x', y))
    ensures Mul(x, Xor(y, y')) == Xor(Mul(x, y), Mul(x, y'))
  {
    MulBitsLeftLinear(x, x', y);
    MulBitsRightLinear(x, y, y');
  }

  // ---------------------------------------------------------------- Mul is a commutative ring

  lemma {:induction false} MulBitsMulX(a: Bits, v: Block)
    ensures MulBits(a, MulX(v)) == MulX(MulBits(a, v))
  {
    hide Xor, MulX, Zeros;
    if a == [] {
      MulXZero();
    } else {
      MulBitsMulX(a[1..], MulX(v));
      MulXLinear(Select(a[0], v), MulBits(a[1..], MulX(v)));
      MulXZero();
    }
  }

  lemma {:induction false} MulBitsExchange(a: Bits, b: Bits, v: Block)
    ensures MulBits(a, MulBits(b, v)) == MulBits(b, MulBits(a, v))
  {
    hide Xor, MulX, Zeros;
    if b == [] {
      MulBitsZero(a);
    } else {
      MulBitsRightLinear(a, Select(b[0], v), MulBits(b[1..], MulX(v)));
      MulBitsZero(a);
      MulBitsExchange(a, b[1..], MulX(v));
      MulBitsMulX(a, v);
    }
  }

  /** Horner evaluation of a polynomial of any length at x, inside the field. */
  function Eval(p: Bits): (r: Block) {
    if p == [] then Zeros(128) else Xor(Select(p[0], One()), MulX(Eval(p[1..])))
  }

  lemma {:induction false} EvalPads(p: Bits)
    requires |p| <= 128
    ensures Eval(p) == p + Zeros(128 - |p|)
  {
    hide Tail, MulX, Xor, Zeros;
    if p != [] {
      EvalPads(p[1..]);
      MulXAt(Eval(p[1..]));
      assert forall i :: 0 <= i < 128 ==> Eval(p)[i] == (p + Zeros(128 - |p|))[i];
    }
  }

  lemma {:induction false} EvalIsMulBits(p: Bits)
    ensures Eval(p) == MulBits(p, One())
  {
    hide Xor, MulX, Zeros;
    if p != [] {
      EvalIsMulBits(p[1..]);
      MulBitsMulX(p[1..], One());
    }
  }

  /** 1 is neutral, and the product commutes and associates. */
  lemma MulCommutativeRing(x: Block, y: Block, z: Block)
    ensures Mul(x, One()) == x == Mul(One(), x)
    ensures Mul(x, y) == Mul(y, x)
    ensures Mul(Mul(x, y), z) == Mul(x, Mul(y, z))
  {
    MulOne(x);
    MulOne(y);
    MulOne(z);
    MulBitsExchange(x, y, One());
    MulBitsExchange(x, One(), One());
    MulOne(One());
    MulBitsExchange(x, z, y);
    MulBitsExchange(y, z, One());
    MulOne(Mul(x, y));
    MulBitsExchange(Mul(x, y), z, One());
  }

  lemma MulOne(x: Block)
    ensures Mul(x, One()) == x
  {
    EvalIsMulBits(x);
    EvalPads(x);
    assert x + Zeros(0) == x;
  }

  // ---------------------------------------------------------------- the textbook definition

  /** The product of two polynomials, by the schoolbook method; it has |p| + |q| coefficients. */
  function PolyMul(p: Bits, q: Bits): (r: Bits)
    ensures |r| == |p| + |q|
  {
    if p == [] then Zeros(|q|)
    else Xor((if p[0] then q else Zeros(|q|)) + Zeros(|p|), [false] + PolyMul(p[1..], q))
  }

  /** x^128 + x^7 + x^2 + x + 1, with 129 coefficients. */
  function Modulus(): (m: Bits)
    ensures |m| == 129
  {
    Tail() + [true]
  }

  /** Long division: as long as there are more than 128 coefficients, cancel the leading one with
      a shifted copy of the modulus.  What is left is the remainder. */
  function PolyMod(p: Bits): (r: Block)
    decreases |p|
  {
    var n := |p|;
    if n <= 128 then p + Zeros(128 - n)
    else if p[n - 1] then PolyMod(Xor(p, Zeros(n - 129) + Modulus())[..n - 1])
    else PolyMod(p[..n - 1])
  }

  lemma {:induction false} EvalZeros(n: nat)
    ensures Eval(Zeros(n)) == Zeros(128)
  {
    hide Xor, MulX, Zeros;
    if n > 0 {
      assert Zeros(n)[1..] == Zeros(n - 1);
      EvalZeros(n - 1);
      MulXZero();
      XorZero(Zeros(128));
    }
  }

  lemma {:induction false} EvalLinear(p: Bits, q: Bits)
    requires |p| == |q|
    ensures Eval(Xor(p, q)) == Xor(Eval(p), Eval(q))
  {
    hide Xor, MulX, Zeros;
    EvalIsMulBits(p);
    EvalIsMulBits(q);
    EvalIsMulBits(Xor(p, q));
    MulBitsLeftLinear(p, q, One());
  }

  lemma {:induction false} EvalTrailingZeros(p: Bits, n: nat)
    ensures Eval(p + Zeros(n)) == Eval(p)
  {
    hide Xor, MulX, Zeros;
    if p == [] {
      assert p + Zeros(n) == Zeros(n);
      EvalZeros(n);
    } else {
      assert (p + Zeros(n))[1..] == p[1..] + Zeros(n);
      EvalTrailingZeros(p[1..], n);
    }
  }

  lemma {:induction false} EvalLeadingZeros(n: nat, p: Bits)
    requires Eval(p) == Zeros(128)
    ensures Eval(Zeros(n) + p) == Zeros(128)
  {
    hide Xor, MulX, Zeros;
    if n == 0 {
      assert Zeros(0) + p == p;
    } else {
      assert (Zeros(n) + p)[1..] == Zeros(n - 1) + p;
      EvalLeadingZeros(n - 1, p);
      MulXZero();
      XorZero(Zeros(128));
    }
  }

  /** The modulus evaluates to 0, so cancelling multiples of it keeps the value. */
  lemma EvalModulus()
    ensures Eval(Modulus()) == Zeros(128)
  {
    hide Tail, MulX, Xor, Zeros;
    var m := Modulus();
    EvalPads(m[1..]);
    var t: Block := m[1..];
    assert t + Zeros(0) == t;
    MulXAt(t);
    forall i | 0 <= i < 128
      ensures One()[i] == MulX(t)[i]
    {
      assert i > 0 ==> t[i - 1] == Tail()[i];
      assert t[127];
    }
    assert One() == MulX(t);
    XorSelf(One());
  }

  lemma {:induction false} EvalPolyMul(p: Bits, q: Bits)
    ensures Eval(PolyMul(p, q)) == MulBits(p, Eval(q))
  {
    hide Xor, MulX, Zeros;
    if p == [] {
      EvalZeros(|q|);
    } else {
      var low := if p[0] then q else Zeros(|q|);
      var high := PolyMul(p[1..], q);
      EvalLinear(low + Zeros(|p|), [false] + high);
      EvalTrailingZeros(low, |p|);
      EvalZeros(|q|);
      assert ([false] + high)[1..] == high;
      XorZero(MulX(Eval(high)));
      EvalPolyMul(p[1..], q);
      MulBitsMulX(p[1..], Eval(q));
    }
  }

  lemma {:induction false} PolyModIsEval(p: Bits)
    ensures PolyMod(p) == Eval(p)
    decreases |p|
  {
    hide Xor, MulX, Zeros;
    var n := |p|;
    if n <= 128 {
      EvalPads(p);
    } else {
      var m := Zeros(n - 129) + Modulus();
      var p' := if p[n - 1] then Xor(p, m) else p;
      assert p' == p'[..n - 1] + Zeros(1);
      EvalTrailingZeros(p'[..n - 1], 1);
      EvalModulus();
      EvalLeadingZeros(n - 129, Modulus());
      EvalLinear(p, m);
      XorZero(Eval(p));
      PolyModIsEval(p'[..n - 1]);
    }
  }

  /** `Mul` is polynomial multiplication modulo x^128 + x^7 + x^2 + x + 1. */
  lemma MulIsPolynomialProduct(x: Block, y: Block)
    ensures Mul(x, y) == PolyMod(PolyMul(x, y))
  {
    PolyModIsEval(PolyMul(x, y));
    EvalPolyMul(x, y);
    EvalPads(y);
    assert y + Zeros(0) == y;
  }
}
