/** The 32-bit two's-complement `int` of the C++ code. */
module Int32 {

  const Modulus: int := 0x1_0000_0000
  const Min: int := -0x8000_0000
  const Max: int := 0x7fff_ffff

  predicate InRange(x: int) {
    Min <= x <= Max
  }

  /** Reduces an unbounded integer to the 32-bit value with the same
      residue modulo 2^32, as two's-complement hardware does. */
  function Wrap(x: int): (r: int)
    ensures InRange(r)
    ensures (r - x) % Modulus == 0
    ensures InRange(x) ==> r == x
  {
    (x - Min) % Modulus + Min
  }

  /** Integers with the same residue wrap to the same 32-bit value. */
  lemma WrapCongruent(x: int, y: int)
    requires (x - y) % Modulus == 0
    ensures Wrap(x) == Wrap(y)
  {
    var q := (x - y) / Modulus;
    assert x - Min == (y - Min) + Modulus * q;
  }

  /** Wrapping commutes with `x * m + b`: operands congruent modulo 2^32
      give results that wrap to the same value. */
  lemma WrapAffine(x: int, y: int, m: int, b: int)
    requires (x - y) % Modulus == 0
    ensures Wrap(x * m + b) == Wrap(y * m + b)
  {
    var q := (x - y) / Modulus;
    assert x - y == Modulus * q;
    assert (x * m + b) - (y * m + b) == (x - y) * m;
    assert (x - y) * m == Modulus * (q * m);
    WrapCongruent(x * m + b, y * m + b);
  }

  /** C's `abs` on a 32-bit `int`. `abs(INT_MIN)` is undefined in C++;
      two's-complement hardware returns INT_MIN itself, and that is the
      value taken here. */
  function Abs(x: int): (r: int)
    requires InRange(x)
    ensures InRange(r)
    ensures x != Min ==> 0 <= r && (r == x || r == -x)
    ensures x == Min ==> r == Min
  {
    if x == Min then Min else if x < 0 then -x else x
  }
}
