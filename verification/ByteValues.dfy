/** Bytes as numbers. */
module ByteValues {

  type Byte = bv8

  function Val(b: bv8): (n: nat)
    ensures n < 256
  {
    b as nat
  }

  lemma NumberKept(n: nat)
    requires n < 256
    ensures Val(n as bv8) == n
  {
  }

  function ByteOf(n: nat): (b: bv8)
    requires n < 256
    ensures Val(b) == n
  {
    hide Val;
    NumberKept(n);
    n as bv8
  }

  lemma ByteDetermined(a: bv8, b: bv8)
    requires Val(a) == Val(b)
    ensures a == b
  {
  }

  lemma ByteIncrement(b: bv8)
    ensures b + 1 == 0 <==> Val(b) == 255
    ensures b + 1 == 0 ==> Val(b + 1) == 0
    ensures Val(b) != 255 ==> Val(b + 1) == Val(b) + 1
  {
  }

  /** Addition of bytes, which wraps at 256. */
  function Add(a: bv8, b: bv8): bv8 {
    a + b
  }

  /** Exclusive or of bytes. */
  function Xor8(a: bv8, b: bv8): bv8 {
    a ^ b
  }

  lemma Xor8Injective(a: bv8, b: bv8, c: bv8)
    ensures Xor8(a, c) == Xor8(b, c) ==> a == b
    ensures Xor8(c, a) == Xor8(c, b) ==> a == b
  {
  }

  lemma AddOne(a: bv8, b: bv8)
    requires b != 0
    ensures Add(a, b) == Add(a, b - 1) + 1 && b == (b - 1) + 1
    ensures Add(a, 0) == a
  {
  }

  lemma ZeroValue(b: bv8)
    ensures Val(b) == 0 <==> b == 0
  {
  }

  lemma AddZero(a: bv8)
    ensures Add(a, 0) == a
  {
  }

  lemma {:induction false} ByteAddition(a: bv8, b: bv8)
    ensures Val(Add(a, b)) == (Val(a) + Val(b)) % 256
    decreases Val(b)
  {
    hide Val, Add;
    ZeroValue(b);
    if b == 0 {
      AddZero(a);
    } else {
      var c := b - 1;
      AddOne(a, b);
      ByteIncrement(c);
      ZeroValue(c + 1);
      ByteAddition(a, c);
      var s := Add(a, c);
      ByteIncrement(s);
      ZeroValue(s + 1);
    }
  }
}
