/** The C++ conversions the game relies on, written out because Dafny's
    integers are unbounded and its `/` is Euclidean. */
module CppMath {

  function Abs(n: int): nat { if n < 0 then -n else n }

  /** `(int)r` / `static_cast<int>(r)` on a float: truncation toward zero.
      Its bounds are the lemma TruncBounds, kept apart so that formulas
      over many truncated positions stay cheap to check. */
  function Trunc(r: real): int {
    if r >= 0.0 then r.Floor else -((-r).Floor)
  }

  /** Truncation drops the fraction toward zero: it lands in the unit
      interval below a non-negative value and above a negative one. */
  lemma TruncBounds(r: real)
    ensures r >= 0.0 ==> 0 <= Trunc(r) && Trunc(r) as real <= r < Trunc(r) as real + 1.0
    ensures r < 0.0 ==> Trunc(r) <= 0 && Trunc(r) as real - 1.0 < r <= Trunc(r) as real
  {
  }

  /** `std::lround`: nearest integer, halfway cases away from zero. */
  function Round(r: real): (n: int)
    ensures n as real - 0.5 <= r <= n as real + 0.5
    ensures r >= 0.0 ==> n >= 0
    ensures r - r.Floor as real == 0.5 ==> n == (if r >= 0.0 then r.Floor + 1 else r.Floor)
  {
    if r >= 0.0 then (r + 0.5).Floor else -((-r + 0.5).Floor)
  }

  /** C++ `a / b` on int: the quotient of the magnitudes, negated when the
      signs differ, so it truncates toward zero (C++ [expr.mul]). */
  function CDiv(a: int, b: int): int
    requires b != 0
  {
    if (a < 0) == (b < 0) then Abs(a) / Abs(b) else -(Abs(a) / Abs(b))
  }

  /** The remainder `a - CDiv(a, b) * b` is smaller than the divisor in
      magnitude and is zero or has the sign of the dividend. */
  lemma CDivRemainder(a: int, b: int)
    requires b != 0
    ensures Abs(a - CDiv(a, b) * b) < Abs(b)
    ensures a - CDiv(a, b) * b == 0 || ((a - CDiv(a, b) * b < 0) <==> (a < 0))
  {
    var aa, bb := Abs(a), Abs(b);
    var p: int := aa / bb * bb;
    assert 0 <= aa - p < bb;
    CDivTimesDivisor(a, b);
    assert a - CDiv(a, b) * b == (if a < 0 then -(aa - p) else aa - p);
  }

  /** The truncating quotient times the divisor is the floor multiple of
      the magnitudes, carrying the dividend's sign. */
  lemma CDivTimesDivisor(a: int, b: int)
    requires b != 0
    ensures CDiv(a, b) * b == (if a < 0 then -(Abs(a) / Abs(b) * Abs(b)) else Abs(a) / Abs(b) * Abs(b))
  {
    var m: int := Abs(a) / Abs(b);
    NegatedProduct(m, Abs(b));
  }

  /** Negating one factor negates the product. */
  lemma NegatedProduct(x: int, y: int)
    ensures (-x) * y == -(x * y) && x * (-y) == -(x * y) && (-x) * (-y) == x * y
  {
  }

  /** Unsigned 32-bit subtraction (`Uint32 now - Uint32 then`), which wraps. */
  function U32Sub(a: int, b: int): (d: nat)
    ensures d < 0x1_0000_0000
    ensures 0 <= b <= a < 0x1_0000_0000 ==> d == a - b
  {
    (a - b) % 0x1_0000_0000
  }

  /** For a non-negative dividend and a positive divisor the truncating
      quotient is the floor quotient. */
  lemma CDivOfNonNegative(a: int, b: int)
    requires a >= 0 && b > 0
    ensures CDiv(a, b) == a / b
    ensures CDiv(a, b) * b <= a < CDiv(a, b) * b + b
  {
    assert Abs(a) == a && Abs(b) == b;
  }

  /** A negative dividend with a positive divisor truncates to a quotient
      that is at most zero, and to exactly zero when the dividend is within
      one divisor of zero: a point just left of the origin falls in cell 0. */
  lemma CDivOfNegative(a: int, b: int)
    requires a < 0 && b > 0
    ensures CDiv(a, b) <= 0
    ensures CDiv(a, b) * b >= a
    ensures -b < a ==> CDiv(a, b) == 0
  {
    assert Abs(a) == -a && Abs(b) == b;
    var m := (-a) / b;
    assert CDiv(a, b) == -m;
    assert m * b <= -a;
  }
}
