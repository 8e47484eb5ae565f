/** Even sampling of a curve down to a fixed number of points: the meter curve of a charging
    session (Go) and the chart series of the web client (TypeScript) round the same steps. */
module Sampling {

  /** Rounding half up, which is what both languages do to a number that is not negative. */
  function Round(x: real): int {
    (x + 0.5).Floor
  }

  /** The i-th index sampled when n points are thinned to max, in whole numbers. */
  function Pick(n: nat, max: nat, i: nat): nat
    requires 2 <= max
    requires 1 <= n
  {
    Quotient(2 * (i * (n - 1)) + (max - 1), 2 * (max - 1))
  }

  // Whole division by repeated subtraction.
  function Quotient(a: nat, d: nat): nat
    requires d > 0
  {
    if a < d then 0 else 1 + Quotient(a - d, d)
  }

  lemma {:induction false} QuotientBounds(a: nat, d: nat)
    requires d > 0
    ensures d * Quotient(a, d) <= a < d * Quotient(a, d) + d
  {
    if a >= d {
      QuotientBounds(a - d, d);
      assert d * (1 + Quotient(a - d, d)) == d + d * Quotient(a - d, d);
    }
  }

  lemma QuotientIs(a: nat, d: nat, q: int)
    requires d > 0 && d * q <= a < d * q + d
    ensures Quotient(a, d) == q
  {
    var p := Quotient(a, d);
    QuotientBounds(a, d);
    Unique(a, d, p, q);
  }

  lemma Unique(a: nat, d: nat, p: int, q: int)
    requires d > 0 && d * p <= a < d * p + d && d * q <= a < d * q + d
    ensures p == q
  {
    Spaced(d, p, q);
    Spaced(d, q, p);
  }

  lemma {:induction false} Spaced(d: nat, p: int, q: int)
    requires d > 0
    ensures p < q ==> d * p + d <= d * q
    decreases q - p
  {
    if p < q {
      assert d * q == d * (q - 1) + d;
      Spaced(d, p, q - 1);
    }
  }

  // Adding c to the dividend moves the quotient by c / d, or by one more.
  lemma {:induction false} QuotientStep(a: nat, c: nat, d: nat)
    requires d > 0
    ensures Quotient(a, d) + Quotient(c, d) <= Quotient(a + c, d) <= Quotient(a, d) + Quotient(c, d) + 1
    decreases a + c
  {
    if a >= d {
      QuotientStep(a - d, c, d);
      assert a - d + c == a + c - d;
    } else if c >= d {
      QuotientStep(a, c - d, d);
      assert a + (c - d) == a + c - d;
    }
  }

  /** The first index sampled is the first point and the last is the last. */
  lemma PicksBothEnds(n: nat, max: nat)
    requires 2 <= max && 1 <= n
    ensures Pick(n, max, 0) == 0 && Pick(n, max, max - 1) == n - 1
  {
    var d := max - 1;
    QuotientIs(d, 2 * d, 0);
    assert 2 * (d * (n - 1)) == (2 * d) * (n - 1);
    QuotientIs(2 * (d * (n - 1)) + d, 2 * d, n - 1);
  }

  /** The sampled index is the whole number nearest to i times the exact step, the upper one of two that are as near:
      both sides are scaled by twice the number of steps. */
  lemma PickIsNearest(n: nat, max: nat, i: nat)
    requires 2 <= max && 1 <= n
    ensures var d, exact := max - 1, i * (n - 1);
            2 * (d * Pick(n, max, i)) - d <= 2 * exact < 2 * (d * Pick(n, max, i)) + d
  {
    NearestQuotient(i * (n - 1), max - 1);
  }

  // Adding half the divisor first makes whole division round half up.
  lemma NearestQuotient(exact: nat, d: nat)
    requires d > 0
    ensures var q := Quotient(2 * exact + d, 2 * d); 2 * (d * q) - d <= 2 * exact < 2 * (d * q) + d
  {
    var q := Quotient(2 * exact + d, 2 * d);
    QuotientBounds(2 * exact + d, 2 * d);
    Twice(d, q);
  }

  lemma Twice(d: nat, q: nat)
    ensures (2 * d) * q == 2 * (d * q)
  {
  }

  /** Neighbouring indices are apart by the whole part of the step, or by one more: gaps differ by at most one. */
  lemma GapsAreEven(n: nat, max: nat, i: nat)
    requires 2 <= max < n && i + 1 < max
    ensures var step := Quotient(n - 1, max - 1);
            1 <= step <= Pick(n, max, i + 1) - Pick(n, max, i) <= step + 1
  {
    var d, m := max - 1, n - 1;
    assert (i + 1) * m == i * m + m;
    QuotientStep(2 * (i * m) + d, 2 * m, 2 * d);
    var q := Quotient(m, d);
    QuotientBounds(m, d);
    assert (2 * d) * q == 2 * (d * q);
    QuotientIs(2 * m, 2 * d, q);
  }

  lemma {:induction false} PicksIncrease(n: nat, max: nat, i: nat, j: nat)
    requires 2 <= max < n && i < j < max
    ensures Pick(n, max, i) < Pick(n, max, j)
    decreases j
  {
    GapsAreEven(n, max, j - 1);
    if i < j - 1 {
      PicksIncrease(n, max, i, j - 1);
    }
  }

  /** Sampled indices strictly increase from the first point to the last, so none is taken twice. */
  lemma PicksAreInside(n: nat, max: nat, i: nat)
    requires 2 <= max < n && i < max
    ensures Pick(n, max, i) <= n - 1
    ensures i + 1 < max ==> Pick(n, max, i) < Pick(n, max, i + 1)
  {
    PicksBothEnds(n, max);
    if i + 1 < max {
      PicksIncrease(n, max, i, max - 1);
      PicksIncrease(n, max, i, i + 1);
    }
  }

  /** Rounding i times the exact step gives the sampled index. */
  method RoundedStep(n: nat, max: nat, i: nat) returns (idx: int)
    requires 2 <= max && 1 <= n
    ensures idx == Pick(n, max, i)
  {
    var step := (n - 1) as real / (max - 1) as real;
    var x := i as real * step;
    idx := Round(x);
    Unscale(i as real, (n - 1) as real, (max - 1) as real, x);
    RoundsTo(max - 1, i * (n - 1), x, idx);
    QuotientIs(2 * (i * (n - 1)) + (max - 1), 2 * (max - 1), idx);
  }

  lemma RoundsTo(d: nat, m: nat, x: real, idx: int)
    requires d > 0 && d as real * x == m as real && idx == Round(x)
    ensures (2 * d) * idx <= 2 * m + d < (2 * d) * idx + 2 * d
  {
    var e, r, half := d as real, idx as real, x + 0.5;
    var low, mid, high := e * r, e * half, e * (r + 1.0);
    Scaled(e, r, half, low, mid);
    Scaled(e, half, r + 1.0, mid, high);
    assert mid == m as real + e * 0.5 && high == low + e;
    assert (d * idx) as real == low;
    assert (2 * d) * idx == 2 * (d * idx);
  }

  lemma Unscale(i: real, m: real, d: real, x: real)
    requires d > 0.0 && x == i * (m / d)
    ensures d * x == i * m
  {
    var s := m / d;
    assert s * d == m;
    assert d * (i * s) == i * (s * d);
  }

  lemma Scaled(d: real, a: real, b: real, da: real, db: real)
    requires d > 0.0 && da == d * a && db == d * b
    ensures a <= b ==> da <= db
    ensures a < b ==> da < db
  {
    var gap := b - a;
    assert db - da == d * gap;
    if gap > 0.0 {
      Positive(d, gap, db - da);
    }
  }

  lemma Positive(a: real, b: real, ab: real)
    requires a > 0.0 && b > 0.0 && ab == a * b
    ensures ab > 0.0
  {
  }

  /** Thinning a meter curve in Go, with its clamp and its skip of repeated indices. */
  method Thin<T>(pts: seq<T>, max: int) returns (out: seq<T>)
    ensures max < 2 || |pts| <= max ==> out == pts
    ensures 2 <= max < |pts| ==>
      |out| == max && forall i :: 0 <= i < max ==> Pick(|pts|, max, i) < |pts| && out[i] == pts[Pick(|pts|, max, i)]
  {
    var n := |pts|;
    if max < 2 || n <= max {
      return pts;
    }
    out := [];
    var last := -1;
    for i := 0 to max
      invariant |out| == i
      invariant last == if i == 0 then -1 else Pick(n, max, i - 1)
      invariant forall k :: 0 <= k < i ==> Pick(n, max, k) < n && out[k] == pts[Pick(n, max, k)]
    {
      var idx := RoundedStep(n, max, i);
      PicksAreInside(n, max, i);
      if i > 0 {
        PicksAreInside(n, max, i - 1);
      }
      if idx >= n {
        idx := n - 1;
      }
      if idx == last {
        continue;
      }
      out := out + [pts[idx]];
      last := idx;
    }
  }

  /** Thinning a chart series in TypeScript. */
  method SampleEvenly<T>(items: seq<T>, max: int) returns (out: seq<T>)
    ensures max <= 0 || |items| <= max ==> out == items
    ensures max == 1 < |items| ==> out == [items[0]]
    ensures 2 <= max < |items| ==>
      |out| == max && forall i :: 0 <= i < max ==> Pick(|items|, max, i) < |items| && out[i] == items[Pick(|items|, max, i)]
  {
    if max <= 0 || |items| <= max {
      return items;
    }
    if max == 1 {
      return [items[0]];
    }
    out := [];
    for i := 0 to max
      invariant |out| == i
      invariant forall k :: 0 <= k < i ==> Pick(|items|, max, k) < |items| && out[k] == items[Pick(|items|, max, k)]
    {
      var idx := RoundedStep(|items|, max, i);
      PicksAreInside(|items|, max, i);
      out := out + [items[idx]];
    }
  }
}
