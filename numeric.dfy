/** Numeric vocabulary shared by every module: optional values, the NaN that
    the source filters out, and the square root that the source takes from
    `Math.sqrt`. */
module Numeric {

  datatype Option<T> = None | Some(value: T)

  /** A JavaScript number as far as the core distinguishes it: a real value,
      or the NaN that `isNaN` filters out (0/0 in a fit, an unparsable reading
      read back from storage). */
  datatype Num = Finite(value: real) | NaN

  /** `sqrt` behaves as `Math.sqrt` on the non-negative reals. The core never
      takes the root of a negative value. */
  ghost predicate IsSqrt(sqrt: real -> real)
  {
    forall x: real :: 0.0 <= x ==> 0.0 <= sqrt(x) && sqrt(x) * sqrt(x) == x
  }

  function Abs(x: real): (r: real)
    ensures 0.0 <= r && (r == x || r == -x)
  {
    if x < 0.0 then -x else x
  }

  function MinInt(a: int, b: int): (r: int)
    ensures r <= a && r <= b && (r == a || r == b)
  {
    if a < b then a else b
  }

  lemma {:induction false} SquareNonNegative(d: real)
    ensures 0.0 <= d * d
  {
    if d < 0.0 {
      assert d * d == (-d) * (-d);
    }
  }

  lemma {:induction false} DivNonNegative(x: real, y: real)
    requires 0.0 <= x && 1.0 <= y
    ensures 0.0 <= x / y
  {
    assert x / y * y == x;
  }

  /** Dividing by a positive divisor keeps the sign, and a dividend no
      larger than the divisor gives at most one. */
  lemma {:induction false} DivByPositive(a: real, w: real)
    requires 0.0 < w
    ensures a / w * w == a
    ensures 0.0 <= a ==> 0.0 <= a / w
    ensures a <= w ==> a / w <= 1.0
  {
    var q := a / w;
    assert q * w == a;
  }

  lemma {:induction false} DivBounds(sum: real, n: real, lo: real, hi: real)
    requires 1.0 <= n && n * lo <= sum <= n * hi
    ensures lo <= sum / n <= hi
  {
    var m := sum / n;
    assert m * n == sum;
    assert n * lo <= n * m <= n * hi;
  }

  /** A non-negative root of a sum of two squares dominates both terms. */
  lemma {:induction false} RootOfSumOfSquares(s: real, a: real, b: real)
    requires 0.0 <= s && s * s == a * a + b * b
    ensures Abs(a) <= s && Abs(b) <= s
  {
    assert Abs(a) * Abs(a) == a * a && Abs(b) * Abs(b) == b * b;
    if s < Abs(a) {
      SquareMonotone(s, Abs(a));
    }
    if s < Abs(b) {
      SquareMonotone(s, Abs(b));
    }
  }

  lemma {:induction false} SquareMonotone(x: real, y: real)
    requires 0.0 <= x < y
    ensures x * x < y * y
  {
    var d := y - x;
    assert y * y == x * x + d * (x + y);
    assert 0.0 < d * (x + y);
  }

  /** The root of a square is the non-negative base. */
  lemma {:induction false} SqrtOfSquare(sqrt: real -> real, x: real)
    requires IsSqrt(sqrt) && 0.0 <= x
    ensures sqrt(x * x) == x
  {
    var r := sqrt(x * x);
    assert 0.0 <= r && r * r == x * x;
    if r < x {
      SquareMonotone(r, x);
    } else if x < r {
      SquareMonotone(x, r);
    }
  }

  /** Dividing by the root of `n` divides the square by `n`. */
  lemma {:induction false} QuotientByRoot(a: real, r: real, n: real)
    requires 0.0 <= a && 0.0 <= r && r * r == n && 1.0 <= n
    ensures r != 0.0 && 0.0 <= a / r
    ensures a / r * (a / r) * n == a * a
  {
    var q := a / r;
    assert q * r == a;
    assert q * q * (r * r) == (q * r) * (q * r);
  }
}
