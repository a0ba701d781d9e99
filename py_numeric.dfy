/**
 The numeric built-ins of Python that the cosmic-variance bucketing relies on,
 stated in exact real arithmetic: `round(x, n)` (round half to even), and the
 float operators `%` and `//` (floored, taking the sign of the divisor).
 Binary floating-point representation error is not modelled.
 */
module PyNumeric {

  function Abs(x: real): (a: real)
    ensures 0.0 <= a && (a == x || a == -x)
  {
    if x < 0.0 then -x else x
  }

  /** 10 to the power `digits`, exactly. */
  function Scale(digits: nat): real
  {
    if digits == 0 then 1.0 else 10.0 * Scale(digits - 1)
  }

  /** The integer nearest to `y`; of two equally near integers, the even one. */
  function RoundHalfEven(y: real): (k: int)
    ensures Abs(k as real - y) <= 0.5
    ensures Abs(k as real - y) == 0.5 ==> k % 2 == 0
  {
    var f := y.Floor;
    if y - f as real < 0.5 then f
    else if y - f as real > 0.5 then f + 1
    else if f % 2 == 0 then f
    else f + 1
  }

  /** Python's `round(x, digits)`: x scaled by 10^digits, rounded half to even, scaled back. */
  function Round(x: real, digits: nat): real
    decreases digits
  {
    if digits == 0 then RoundHalfEven(x) as real
    else Round(x * 10.0, digits - 1) / 10.0
  }

  /** y has no fractional part. */
  predicate IsWhole(y: real)
  {
    y.Floor as real == y
  }

  /** `round(x, digits)` has at most `digits` decimals. */
  lemma {:induction false} RoundIsOnGrid(x: real, digits: nat)
    ensures IsWhole(Round(x, digits) * Scale(digits))
    decreases digits
  {
    if digits > 0 {
      var y, d := x * 10.0, digits - 1;
      RoundIsOnGrid(y, d);
      assert Round(x, digits) == Round(y, d) / 10.0;
      assert Scale(digits) == 10.0 * Scale(d);
      assert Round(x, digits) * Scale(digits) == Round(y, d) * Scale(d);
      WholeOfEqual(Round(y, d) * Scale(d), Round(x, digits) * Scale(digits));
    }
  }

  lemma WholeOfEqual(a: real, b: real)
    requires IsWhole(a) && a == b
    ensures IsWhole(b)
  {
  }

  /** Rounding to one decimal moves a value by at most half a tenth. */
  lemma RoundOneIsNear(x: real)
    ensures Abs(Round(x, 1) - x) <= 0.05
  {
    var k := RoundHalfEven(x * 10.0);
    assert Round(x, 1) == k as real / 10.0;
  }

  /** Rounding to two decimals moves a value by at most half a hundredth. */
  lemma RoundTwoIsNear(x: real)
    ensures Abs(Round(x, 2) - x) <= 0.005
  {
    var k := RoundHalfEven(x * 10.0 * 10.0);
    assert Round(x, 2) == k as real / 100.0;
  }

  /** A value with at most `digits` decimals is left alone by Round. */
  lemma {:induction false} RoundOnGrid(x: real, n: int, digits: nat)
    requires x * Scale(digits) == n as real
    ensures Round(x, digits) == x
    decreases digits
  {
    if digits == 0 {
      assert x == n as real;
      assert RoundHalfEven(x) == n;
    } else {
      assert (x * 10.0) * Scale(digits - 1) == x * Scale(digits);
      RoundOnGrid(x * 10.0, n, digits - 1);
    }
  }

  /** Python's `x // d` on floats with `d > 0`: the floor of the quotient. */
  function FloorDiv(x: real, d: real): (q: int)
    requires d > 0.0
    ensures q as real * d <= x
    ensures x < (q + 1) as real * d
  {
    FloorIsNear(x, d);
    (x / d).Floor
  }

  lemma FloorIsNear(x: real, d: real)
    requires d > 0.0
    ensures (x / d).Floor as real * d <= x
    ensures x < ((x / d).Floor + 1) as real * d
  {
    var q := (x / d).Floor;
    assert (x / d) * d == x;
    MulMonotone(q as real, x / d, d);
    assert x / d < (q + 1) as real;
    MulMonotone(x / d, (q + 1) as real, d);
    assert (x / d) * d < (q + 1) as real * d;
    assert x < (q + 1) as real * d;
  }

  lemma MulMonotone(a: real, b: real, c: real)
    requires a <= b && c > 0.0
    ensures a * c <= b * c
    ensures a < b ==> a * c < b * c
  {
  }

  /** Python's `x % d` on floats with `d > 0`: what is left after `x // d` whole steps of `d`. */
  function FloorMod(x: real, d: real): (r: real)
    requires d > 0.0
    ensures 0.0 <= r < d
    ensures x == FloorDiv(x, d) as real * d + r
  {
    x - FloorDiv(x, d) as real * d
  }

  /** Flooring an exact integer quotient gives Euclidean integer division. */
  lemma FloorOfQuotient(n: int, d: int)
    requires d > 0
    ensures (n as real / d as real).Floor == n / d
  {
    var q, r := n / d, n % d;
    assert n == d * q + r && 0 <= r < d;
    assert n as real == d as real * q as real + r as real;
    var frac := r as real / d as real;
    assert 0.0 <= frac < 1.0;
    assert n as real / d as real == q as real + frac;
  }
}
