/** The planar distance from a point to a segment, compared by squares so that no root is taken.
    geo.ts and geo.go clamp the same projection. */
module Geometry {
  import opened Simplify

  datatype Point = Point(x: real, y: real)

  function Dot(u: Point, v: Point): real {
    u.x * v.x + u.y * v.y
  }

  function Minus(p: Point, q: Point): Point {
    Point(p.x - q.x, p.y - q.y)
  }

  function Square(p: Point, q: Point): real {
    Dot(Minus(p, q), Minus(p, q))
  }

  function Clamp(t: real): real {
    if t < 0.0 then 0.0 else if t > 1.0 then 1.0 else t
  }

  /** The point a share t of the way from a to b. */
  function Along(a: Point, b: Point, t: real): Point {
    Point(a.x + t * (b.x - a.x), a.y + t * (b.y - a.y))
  }

  /** Where on the segment the foot of the perpendicular lies, pulled back to an end when it falls outside. */
  function Foot(p: Point, a: Point, b: Point): real {
    var d := Minus(b, a);
    if d.x == 0.0 && d.y == 0.0 then 0.0
    else
      PositiveSquare(d);
      Clamp(Dot(Minus(p, a), d) / Dot(d, d))
  }

  /** The square of the source's distance. */
  function SquaredOff(p: Point, a: Point, b: Point): real {
    Square(p, Along(a, b, Foot(p, a, b)))
  }

  lemma PositiveSquare(d: Point)
    requires d.x != 0.0 || d.y != 0.0
    ensures Dot(d, d) > 0.0
  {
    SumOfSquares(d.x, d.y, d.x * d.x, d.y * d.y);
  }

  lemma SumOfSquares(x: real, y: real, xx: real, yy: real)
    requires x != 0.0 || y != 0.0
    requires xx == x * x && yy == y * y
    ensures xx + yy > 0.0
  {
    SquareSign(x, xx);
    SquareSign(y, yy);
  }

  lemma SquareSign(x: real, xx: real)
    requires xx == x * x
    ensures x == 0.0 ==> xx == 0.0
    ensures x != 0.0 ==> xx > 0.0
  {
    if x > 0.0 {
      Product(x, x, xx);
    } else if x < 0.0 {
      Product(-x, -x, xx);
    }
  }

  lemma Product(a: real, b: real, ab: real)
    requires a > 0.0 && b > 0.0 && ab == a * b
    ensures ab > 0.0
  {
  }

  lemma NonNegative(x: real)
    ensures x * x >= 0.0
  {
  }

  // |w - t d|^2 written as a quadratic in t.
  lemma Expand(p: Point, a: Point, b: Point, t: real)
    ensures var w, d := Minus(p, a), Minus(b, a);
            Square(p, Along(a, b, t)) == Dot(w, w) - 2.0 * (t * Dot(w, d)) + (t * t) * Dot(d, d)
  {
    var w, d := Minus(p, a), Minus(b, a);
    assert Minus(p, Along(a, b, t)) == Point(w.x - t * d.x, w.y - t * d.y);
    Binomial(w.x, d.x, t);
    Binomial(w.y, d.y, t);
    assert t * (w.x * d.x) + t * (w.y * d.y) == t * Dot(w, d);
    assert (t * t) * (d.x * d.x) + (t * t) * (d.y * d.y) == (t * t) * Dot(d, d);
  }

  lemma Binomial(w: real, d: real, t: real)
    ensures (w - t * d) * (w - t * d) == w * w - 2.0 * (t * (w * d)) + (t * t) * (d * d)
  {
    assert (t * d) * (t * d) == (t * t) * (d * d);
    assert w * (t * d) == t * (w * d);
  }

  /** The distance used is the distance to the nearest point of the segment: nothing on the segment is nearer. */
  lemma FootIsNearest(p: Point, a: Point, b: Point, t: real)
    requires 0.0 <= t <= 1.0
    ensures SquaredOff(p, a, b) <= Square(p, Along(a, b, t))
    ensures 0.0 <= Foot(p, a, b) <= 1.0
  {
    var d := Minus(b, a);
    if d.x == 0.0 && d.y == 0.0 {
      assert Along(a, b, t) == Along(a, b, 0.0);
    } else {
      FootOfProperSegment(p, a, b, t);
    }
  }

  // The squared distance to the segment's points as a quadratic, and the foot as its clamped vertex.
  lemma AsQuadratic(p: Point, a: Point, b: Point) returns (w: real, m: real, l: real)
    requires Minus(b, a).x != 0.0 || Minus(b, a).y != 0.0
    ensures l > 0.0 && Foot(p, a, b) == Clamp(m / l)
    ensures forall t :: Square(p, Along(a, b, t)) == w - 2.0 * (t * m) + (t * t) * l
  {
    w, m, l := Dot(Minus(p, a), Minus(p, a)), Dot(Minus(p, a), Minus(b, a)), Dot(Minus(b, a), Minus(b, a));
    PositiveSquare(Minus(b, a));
    forall t ensures Square(p, Along(a, b, t)) == w - 2.0 * (t * m) + (t * t) * l {
      Expand(p, a, b, t);
    }
  }

  lemma FootOfProperSegment(p: Point, a: Point, b: Point, t: real)
    requires 0.0 <= t <= 1.0
    requires Minus(b, a).x != 0.0 || Minus(b, a).y != 0.0
    ensures SquaredOff(p, a, b) <= Square(p, Along(a, b, t))
  {
    var w, m, l := AsQuadratic(p, a, b);
    var f := Foot(p, a, b);
    LeastAtFoot(w, m, l, f, t, Square(p, Along(a, b, f)), Square(p, Along(a, b, t)));
  }

  lemma LeastAtFoot(w: real, m: real, l: real, f: real, t: real, atFoot: real, there: real)
    requires 0.0 <= t <= 1.0 && 0.0 < l && f == Clamp(m / l)
    requires atFoot == w - 2.0 * (f * m) + (f * f) * l
    requires there == w - 2.0 * (t * m) + (t * t) * l
    ensures atFoot <= there
  {
    QuotientTimes(m, l);
    ClampIsLeast(m / l, l, t);
  }

  lemma QuotientTimes(m: real, l: real)
    requires l != 0.0
    ensures m == (m / l) * l
  {
  }

  // The quadratic with its least value at q is least, between 0 and 1, at q clamped.
  lemma ClampIsLeast(q: real, l: real, t: real)
    requires 0.0 <= t <= 1.0 && 0.0 < l
    ensures var f := Clamp(q);
            (f * f) * l - 2.0 * (f * (q * l)) <= (t * t) * l - 2.0 * (t * (q * l))
  {
    var f := Clamp(q);
    ClampIsNearest(q, t);
    Scale((f - q) * (f - q), (t - q) * (t - q), l);
    Complete(q, l, t);
    Complete(q, l, f);
  }

  lemma Scale(x: real, y: real, l: real)
    requires x <= y && 0.0 <= l
    ensures x * l <= y * l
  {
  }

  lemma Complete(q: real, l: real, t: real)
    ensures (t * t) * l - 2.0 * (t * (q * l)) == (t - q) * (t - q) * l - (q * q) * l
  {
    assert (t - q) * (t - q) == t * t - 2.0 * (t * q) + q * q;
    assert ((t * t - 2.0 * (t * q)) + q * q) * l == (t * t) * l - 2.0 * ((t * q) * l) + (q * q) * l;
    assert (t * q) * l == t * (q * l);
  }

  lemma ClampIsNearest(q: real, t: real)
    requires 0.0 <= t <= 1.0
    ensures (Clamp(q) - q) * (Clamp(q) - q) <= (t - q) * (t - q)
  {
    if q < 0.0 {
      assert 0.0 <= Clamp(q) - q <= t - q;
    } else if q > 1.0 {
      assert t - q <= Clamp(q) - q <= 0.0;
    } else {
      NonNegative(t - q);
    }
  }

  /** Some point of the segment is within the tolerance of p. */
  ghost predicate Near(p: Point, a: Point, b: Point, tolerance: real) {
    exists q :: OnSegment(q, a, b) && Square(p, q) <= tolerance * tolerance
  }

  ghost predicate OnSegment(q: Point, a: Point, b: Point) {
    exists t: real :: 0.0 <= t <= 1.0 && q == Along(a, b, t)
  }

  /** Every point the thinned track leaves out lies within the tolerance of the line drawn between its kept neighbours. */
  lemma DrawnLineIsClose(pts: seq<Point>, tolerance: real, i: nat) returns (x: nat, y: nat)
    requires 0.0 <= tolerance && i < |pts| && i !in Simplified(SquaredOff, pts, tolerance * tolerance)
    ensures x < i < y < |pts|
    ensures var kept := Simplified(SquaredOff, pts, tolerance * tolerance);
            x in kept && y in kept && forall z :: x < z < y ==> z !in kept
    ensures Near(pts[i], pts[x], pts[y], tolerance)
  {
    NonNegative(tolerance);
    x, y := DroppedPointsAreClose(SquaredOff, pts, tolerance * tolerance, i);
    FootIsNearest(pts[i], pts[x], pts[y], 0.0);
    assert OnSegment(Along(pts[x], pts[y], Foot(pts[i], pts[x], pts[y])), pts[x], pts[y]);
  }
}
