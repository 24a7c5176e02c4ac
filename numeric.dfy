/** The C conversions the renderer relies on: float-to-int truncation,
    the truncating `%` of C99, and the float-to-`unsigned char` store. */
module CNumeric {

  /** An `unsigned char` value. */
  newtype byte = x: int | 0 <= x < 256

  /** C's conversion of a floating value to `int`: rounds toward zero. */
  function Trunc(r: real): (t: int)
    ensures r >= 0.0 ==> 0.0 <= t as real <= r < t as real + 1.0
    ensures r < 0.0 ==> t as real - 1.0 < r <= t as real <= 0.0
  {
    if r >= 0.0 then r.Floor else -((-r).Floor)
  }

  /** An integral value converts to itself. */
  lemma TruncOfInt(k: int)
    ensures Trunc(k as real) == k
  {
  }

  /** Truncation is monotone, so it commutes with taking a minimum or maximum. */
  lemma TruncMonotone(a: real, b: real)
    requires a <= b
    ensures Trunc(a) <= Trunc(b)
  {
  }

  /** Adding a multiple of `b` does not change the Euclidean residue. */
  lemma {:induction false} ModAddMultiple(x: int, b: int, k: int)
    requires b > 0
    ensures (x + b * k) % b == x % b
  {
    var q, r := x / b, x % b;
    assert x == b * q + r && 0 <= r < b;
    assert x + b * k == b * (q + k) + r;
    DivModUnique(x + b * k, b, q + k, r);
  }

  /** The quotient and remainder of Euclidean division are determined by
      `a == b * q + r` with `0 <= r < b`. */
  lemma DivModUnique(a: int, b: int, q: int, r: int)
    requires b > 0 && a == b * q + r && 0 <= r < b
    ensures a / b == q && a % b == r
  {
    var q', r' := a / b, a % b;
    assert a == b * q' + r' && 0 <= r' < b;
    assert b * (q - q') == r' - r;
    if q - q' >= 1 {
      MulAtLeast(b, q - q');
    } else if q' - q >= 1 {
      MulAtLeast(b, q' - q);
    }
  }

  lemma MulAtLeast(b: int, k: int)
    requires b > 0 && k >= 1
    ensures b * k >= b
  {
  }

  /** k m >= 0 with k positive makes m non-negative. */
  lemma FactorSign(k: int, m: int)
    requires k > 0 && k * m >= 0
    ensures m >= 0
  {
    if m < 0 {
      MulLeq(k, m, -1);
    }
  }

  lemma MulLeq(k: int, a: int, b: int)
    requires k > 0 && a <= b
    ensures k * a <= k * b
  {
    assert k * b - k * a == k * (b - a);
  }

  /** C99's `a % b` for a positive divisor: the remainder takes the sign of
      `a`, is smaller than `b` in magnitude, and is congruent to `a`. */
  function CRem(a: int, b: int): (r: int)
    requires b > 0
    ensures a >= 0 ==> 0 <= r < b
    ensures a < 0 ==> -b < r <= 0
    ensures r % b == a % b
  {
    if a >= 0 then a % b
    else
      NegatedRemainder(a, b);
      -((-a) % b)
  }

  /** For negative `a`, negating the remainder of `-a` gives a value
      congruent to `a`. */
  lemma NegatedRemainder(a: int, b: int)
    requires b > 0 && a < 0
    ensures (-((-a) % b)) % b == a % b
  {
    var q, m := (-a) / b, (-a) % b;
    assert -a == b * q + m;
    assert -m == a + b * q;
    ModAddMultiple(a, b, q);
  }

  /** Storing a float into an `unsigned char`: truncation toward zero, then
      reduction modulo 256 (C leaves values outside [0, 256) undefined; the
      model takes the usual two's-complement wrap). */
  function ToByte(r: real): (b: byte)
    ensures 0.0 <= r < 256.0 ==> b as int == r.Floor
  {
    (Trunc(r) % 256) as byte
  }
}
