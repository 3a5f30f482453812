/**
 * Integer points and rectangles (`FIntPoint`, `FIntRect`) with the engine's
 * integer arithmetic: C++ division of `int32` truncates toward zero, and
 * dividing a rectangle by an integer divides each corner.
 */
module IntRects {

  datatype IntPoint = IntPoint(x: int, y: int)

  datatype IntRect = IntRect(min: IntPoint, max: IntPoint) {

    function Width(): int { max.x - min.x }

    function Height(): int { max.y - min.y }

    function Size(): IntPoint { IntPoint(Width(), Height()) }
  }

  /** `FIntRect(X0, Y0, X1, Y1)`. */
  function Rect(x0: int, y0: int, x1: int, y1: int): IntRect {
    IntRect(IntPoint(x0, y0), IntPoint(x1, y1))
  }

  /** C++ `a / d` for a positive divisor: the quotient rounded toward zero. */
  function CDiv(a: int, d: int): (q: int)
    requires d > 0
    ensures (a >= 0 ==> q >= 0) && (a <= 0 ==> q <= 0)
  {
    if a >= 0 then a / d else -((-a) / d)
  }

  /** The quotient times the divisor lies between zero and `a`, less than one divisor away from `a`. */
  lemma CDivBounds(a: int, d: int)
    requires d > 0
    ensures a >= 0 ==> 0 <= CDiv(a, d) * d <= a < CDiv(a, d) * d + d
    ensures a < 0 ==> CDiv(a, d) * d - d < a <= CDiv(a, d) * d <= 0
  {
    if a >= 0 {
      NatDivBounds(a, d);
    } else {
      NatDivBounds(-a, d);
      NegateMul((-a) / d, d);
    }
  }

  lemma NatDivBounds(n: nat, d: int)
    requires d > 0
    ensures 0 <= (n / d) * d <= n < (n / d) * d + d
  {
    MulNonNegative(n / d, d);
  }

  lemma NegateMul(x: int, y: int)
    ensures (-x) * y == -(x * y)
  {
  }

  lemma MulNonNegative(x: int, y: int)
    requires x >= 0 && y >= 0
    ensures x * y >= 0
  {
  }

  /** `FIntRect / int32`: both corners divided, each rounded toward zero. */
  function DivRect(r: IntRect, d: int): (q: IntRect)
    requires d > 0
    ensures q.min == IntPoint(CDiv(r.min.x, d), CDiv(r.min.y, d))
    ensures q.max == IntPoint(CDiv(r.max.x, d), CDiv(r.max.y, d))
  {
    IntRect(IntPoint(CDiv(r.min.x, d), CDiv(r.min.y, d)), IntPoint(CDiv(r.max.x, d), CDiv(r.max.y, d)))
  }

  function Pow2(n: nat): (p: int)
    ensures p >= 1
  {
    if n == 0 then 1 else 2 * Pow2(n - 1)
  }

  /** Euclidean division by a positive divisor is determined by quotient and remainder. */
  lemma DivUnique(a: int, m: int, q: int, r: int)
    requires m > 0 && a == q * m + r && 0 <= r < m
    ensures a / m == q
  {
    var k := a / m - q;
    assert k * m == r - a % m by {
      assert a == (a / m) * m + a % m;
      assert k * m == (a / m) * m - q * m;
    }
    if k >= 1 {
      MulAtLeast(k, m);
    } else if k <= -1 {
      MulAtLeast(-k, m);
    }
  }

  lemma MulAtLeast(k: int, m: int)
    requires k >= 1 && m > 0
    ensures k * m >= m
  {
    MulNonNegative(k - 1, m);
    assert k * m == (k - 1) * m + m;
  }

  /** For natural numbers, dividing by `d` and then by 2 is dividing by `2 * d`. */
  lemma NatDivTwice(a: nat, d: int)
    requires d > 0
    ensures a / d / 2 == a / (2 * d)
  {
    var q := a / d;
    var r := a % d;
    var q2 := q / 2;
    var r2 := q % 2;
    assert a == q * d + r;
    assert q == 2 * q2 + r2;
    assert a == q2 * (2 * d) + (r2 * d + r) by {
      assert q * d == (2 * q2 + r2) * d;
    }
    assert 0 <= r2 * d + r < 2 * d by {
      assert r2 == 0 || r2 == 1;
    }
    DivUnique(a, 2 * d, q2, r2 * d + r);
  }

  /** Truncating division composes: halving `a / d` is dividing `a` by `2 * d`. */
  lemma CDivTwice(a: int, d: int)
    requires d > 0
    ensures CDiv(CDiv(a, d), 2) == CDiv(a, 2 * d)
  {
    if a >= 0 {
      NatDivTwice(a, d);
    } else {
      NatDivTwice(-a, d);
    }
  }
}
