/** Java's 32-bit `int`: the score accumulators and rule weights of the
    detection pipeline are `int`, and `+=` on them wraps around in two's
    complement. */
module JavaInt {

  const MinInt: int := -0x8000_0000
  const MaxInt: int := 0x7fff_ffff
  const Modulus: int := 0x1_0000_0000

  type Int32 = x: int | MinInt <= x <= MaxInt

  /** The value of `x` reduced to 32 bits, as Java's `int` arithmetic does. */
  function Wrap(x: int): Int32 {
    (x - MinInt) % Modulus + MinInt
  }

  /** `Wrap` changes its argument by a multiple of 2^32 and leaves the
      values that fit in 32 bits alone. */
  lemma WrapSpec(x: int)
    ensures (Wrap(x) - x) % Modulus == 0
    ensures MinInt <= x <= MaxInt ==> Wrap(x) == x
  {
    ModOfDifference(x - MinInt, (x - MinInt) % Modulus);
  }

  /** Java's `a + b` on two `int`s. */
  function Add(a: Int32, b: Int32): Int32 {
    Wrap(a + b)
  }

  /** (y - y % M) is a multiple of M. */
  lemma ModOfDifference(y: int, m: int)
    requires m == y % Modulus
    ensures (m - y) % Modulus == 0
  {
    var q := y / Modulus;
    assert y == q * Modulus + m;
    assert m - y == (-q) * Modulus;
  }

  /** Two values that differ by a multiple of M have the same residue. */
  lemma SameResidue(x: int, y: int)
    requires (x - y) % Modulus == 0
    ensures x % Modulus == y % Modulus
  {
    var k := (x - y) / Modulus;
    assert x - y == k * Modulus;
    var q := y / Modulus;
    var r := y % Modulus;
    assert y == q * Modulus + r;
    assert x == (q + k) * Modulus + r;
  }

  /** Wrapping the running total after every step is the same as wrapping
      the mathematical total once: the accumulator of a Java loop that does
      `total += x` equals `Wrap` of the exact sum. */
  lemma {:induction false} WrapAdd(a: int, b: int)
    ensures Wrap(Wrap(a) + b) == Wrap(a + b)
  {
    var wa := Wrap(a);
    WrapSpec(a);
    assert ((wa + b) - (a + b)) % Modulus == 0;
    SameResidue((wa + b) - MinInt, (a + b) - MinInt);
  }

  /** `Wrap` is the identity on exactly the values that fit in 32 bits. */
  lemma WrapIsIdentityIff(x: int)
    ensures Wrap(x) == x <==> MinInt <= x <= MaxInt
  {
    WrapSpec(x);
  }
}
