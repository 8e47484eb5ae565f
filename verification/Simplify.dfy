/** Track thinning for the map: the iterative Douglas-Peucker loop.
    The distance from a point to a segment is a parameter, so every result
    below holds for any distance; module Geometry supplies the planar one. */
module Simplify {
  import opened Basics

  type Distance<!P> = (P, P, P) -> real
  type Segment = (nat, nat)

  // The distance of point i from the segment between points s and e.
  ghost function Off<P>(dist: Distance<P>, pts: seq<P>, s: nat, e: nat, i: nat): real
    requires s < |pts| && e < |pts| && i < |pts|
  {
    dist(pts[i], pts[s], pts[e])
  }

  /** k is the first of the farthest interior points, and it is far enough to split the segment. */
  ghost predicate Splits<P>(dist: Distance<P>, pts: seq<P>, tolerance: real, s: nat, e: nat, k: nat)
    requires s < e < |pts|
  {
    && s < k < e
    && Off(dist, pts, s, e, k) > 0.0
    && Off(dist, pts, s, e, k) > tolerance
    && (forall i :: s < i < k ==> Off(dist, pts, s, e, i) < Off(dist, pts, s, e, k))
    && (forall i :: k < i < e ==> Off(dist, pts, s, e, i) <= Off(dist, pts, s, e, k))
  }

  /** Every interior point is within the tolerance of the segment. */
  ghost predicate Flat<P>(dist: Distance<P>, pts: seq<P>, tolerance: real, s: nat, e: nat)
    requires s < e < |pts|
  {
    forall i :: s < i < e ==> Off(dist, pts, s, e, i) <= 0.0 || Off(dist, pts, s, e, i) <= tolerance
  }

  /** Where Douglas-Peucker splits the segment, if it does. */
  ghost function SplitPoint<P>(dist: Distance<P>, pts: seq<P>, tolerance: real, s: nat, e: nat): (r: Option<nat>)
    requires s < e < |pts|
    ensures r.Some? ==> s < r.value < e
  {
    if k: nat :| Splits(dist, pts, tolerance, s, e, k) then Some(k) else None
  }

  /** The recursive definition of Douglas-Peucker: the points kept strictly between s and e. */
  ghost function Kept<P>(dist: Distance<P>, pts: seq<P>, tolerance: real, s: nat, e: nat): (r: set<nat>)
    requires s < e < |pts|
    ensures forall x :: x in r ==> s < x < e
    decreases e - s
  {
    match SplitPoint(dist, pts, tolerance, s, e)
    case None => {}
    case Some(k) => Kept(dist, pts, tolerance, s, k) + {k} + Kept(dist, pts, tolerance, k, e)
  }

  /** The points the whole simplification keeps. */
  ghost function Simplified<P>(dist: Distance<P>, pts: seq<P>, tolerance: real): set<nat> {
    if pts == [] then {}
    else if |pts| <= 2 then {0, |pts| - 1}
    else Kept(dist, pts, tolerance, 0, |pts| - 1) + {0, |pts| - 1}
  }

  ghost predicate Ascends(r: seq<nat>) {
    forall i, j :: 0 <= i < j < |r| ==> r[i] < r[j]
  }

  /** r lists the set in ascending order, each element once; there is only one such list. */
  ghost predicate Lists(r: seq<nat>, all: set<nat>) {
    Ascends(r) && forall x :: x in r <==> x in all
  }

  lemma SplitIsUnique<P>(dist: Distance<P>, pts: seq<P>, tolerance: real, s: nat, e: nat, k: nat)
    requires s < e < |pts| && Splits(dist, pts, tolerance, s, e, k)
    ensures SplitPoint(dist, pts, tolerance, s, e) == Some(k)
  {
    var m := SplitPoint(dist, pts, tolerance, s, e).value;
    assert Splits(dist, pts, tolerance, s, e, m);
  }

  // k is the first of the farthest points among those strictly between s and b, and it is off the segment.
  ghost predicate Farthest<P>(dist: Distance<P>, pts: seq<P>, s: nat, e: nat, b: nat, k: nat)
    requires s < b <= e < |pts|
  {
    && s < k < b
    && Off(dist, pts, s, e, k) > 0.0
    && (forall i :: s < i < k ==> Off(dist, pts, s, e, i) < Off(dist, pts, s, e, k))
    && (forall i :: k < i < b ==> Off(dist, pts, s, e, i) <= Off(dist, pts, s, e, k))
  }

  // Unless all of them are on the segment, the points strictly between s and b have a first farthest one.
  lemma {:induction false} SomeFarthest<P>(dist: Distance<P>, pts: seq<P>, s: nat, e: nat, b: nat)
    requires s < b <= e < |pts|
    ensures (forall i :: s < i < b ==> Off(dist, pts, s, e, i) <= 0.0)
         || exists k: nat :: Farthest(dist, pts, s, e, b, k)
    decreases b - s
  {
    if s + 1 < b {
      var c: nat := b - 1;
      SomeFarthest(dist, pts, s, e, c);
      if k: nat :| Farthest(dist, pts, s, e, c, k) {
        if Off(dist, pts, s, e, c) > Off(dist, pts, s, e, k) {
          assert Farthest(dist, pts, s, e, b, c);
        } else {
          assert Farthest(dist, pts, s, e, b, k);
        }
      } else if Off(dist, pts, s, e, c) > 0.0 {
        assert Farthest(dist, pts, s, e, b, c);
      }
    }
  }

  /** A segment that does not split has all its points within the tolerance. */
  lemma NoSplitIsFlat<P>(dist: Distance<P>, pts: seq<P>, tolerance: real, s: nat, e: nat)
    requires s < e < |pts| && SplitPoint(dist, pts, tolerance, s, e).None?
    ensures Flat(dist, pts, tolerance, s, e)
  {
    SomeFarthest(dist, pts, s, e, e);
    if k: nat :| Farthest(dist, pts, s, e, e, k) {
      assert !Splits(dist, pts, tolerance, s, e, k);
      assert Off(dist, pts, s, e, k) <= tolerance;
    }
  }

  // ---- the worklist

  ghost predicate Segments(work: seq<Segment>, n: nat) {
    forall k :: 0 <= k < |work| ==> work[k].0 < work[k].1 < n
  }

  /** The points the segments still on the worklist will mark. */
  ghost function Pending<P>(dist: Distance<P>, pts: seq<P>, tolerance: real, work: seq<Segment>): set<nat>
    requires Segments(work, |pts|)
  {
    if work == [] then {}
    else
      var (s, e) := work[|work| - 1];
      Pending(dist, pts, tolerance, work[..|work| - 1]) + Kept(dist, pts, tolerance, s, e)
  }

  /** An upper bound on the number of segments still to be taken off the worklist. */
  ghost function Load(work: seq<Segment>): nat
    requires forall k :: 0 <= k < |work| ==> work[k].0 < work[k].1
  {
    if work == [] then 0
    else
      var (s, e) := work[|work| - 1];
      Load(work[..|work| - 1]) + 2 * (e - s) - 1
  }

  lemma {:induction false} WorkConcat<P>(dist: Distance<P>, pts: seq<P>, tolerance: real, a: seq<Segment>, b: seq<Segment>)
    requires Segments(a, |pts|) && Segments(b, |pts|)
    ensures Segments(a + b, |pts|)
    ensures Pending(dist, pts, tolerance, a + b) == Pending(dist, pts, tolerance, a) + Pending(dist, pts, tolerance, b)
    ensures Load(a + b) == Load(a) + Load(b)
    decreases |b|
  {
    if b == [] {
      assert a + b == a;
    } else {
      var n := |b| - 1;
      WorkConcat(dist, pts, tolerance, a, b[..n]);
      assert (a + b)[..|a + b| - 1] == a + b[..n];
    }
  }

  lemma WorkOne<P>(dist: Distance<P>, pts: seq<P>, tolerance: real, s: nat, e: nat)
    requires s < e < |pts|
    ensures Pending(dist, pts, tolerance, [(s, e)]) == Kept(dist, pts, tolerance, s, e)
    ensures Load([(s, e)]) == 2 * (e - s) - 1
  {
    var one: seq<Segment> := [(s, e)];
    assert one[..0] == [];
  }

  /** What taking the segment off the worklist does: the point it marks and the segments it puts back. */
  ghost function Mark<P>(dist: Distance<P>, pts: seq<P>, tolerance: real, seg: Segment): set<nat>
    requires seg.0 < seg.1 < |pts|
  {
    match SplitPoint(dist, pts, tolerance, seg.0, seg.1)
    case None => {}
    case Some(k) => {k}
  }

  ghost function Halves<P>(dist: Distance<P>, pts: seq<P>, tolerance: real, seg: Segment): (r: seq<Segment>)
    requires seg.0 < seg.1 < |pts|
    ensures Segments(r, |pts|)
  {
    match SplitPoint(dist, pts, tolerance, seg.0, seg.1)
    case None => []
    case Some(k) => [(seg.0, k), (k, seg.1)]
  }

  lemma HalvesCover<P>(dist: Distance<P>, pts: seq<P>, tolerance: real, seg: Segment)
    requires seg.0 < seg.1 < |pts|
    ensures var halves := Halves(dist, pts, tolerance, seg);
            && Kept(dist, pts, tolerance, seg.0, seg.1) == Mark(dist, pts, tolerance, seg) + Pending(dist, pts, tolerance, halves)
            && Load(halves) < 2 * (seg.1 - seg.0) - 1
  {
    var halves := Halves(dist, pts, tolerance, seg);
    if halves != [] {
      var k := halves[0].1;
      WorkOne(dist, pts, tolerance, seg.0, k);
      WorkOne(dist, pts, tolerance, k, seg.1);
      WorkConcat(dist, pts, tolerance, [(seg.0, k)], [(k, seg.1)]);
      assert halves == [(seg.0, k)] + [(k, seg.1)];
    }
  }

  ghost function Rest<P>(dist: Distance<P>, pts: seq<P>, tolerance: real, work: seq<Segment>, k: nat): (r: seq<Segment>)
    requires Segments(work, |pts|) && k < |work|
    ensures Segments(r, |pts|)
  {
    work[..k] + work[k + 1..] + Halves(dist, pts, tolerance, work[k])
  }

  /** Whichever segment is taken next, what is marked plus what is pending stays the same and the load falls. */
  lemma AnyPickPreserves<P>(dist: Distance<P>, pts: seq<P>, tolerance: real, work: seq<Segment>, k: nat)
    requires Segments(work, |pts|) && k < |work|
    ensures var rest := Rest(dist, pts, tolerance, work, k);
            && Pending(dist, pts, tolerance, work) == Mark(dist, pts, tolerance, work[k]) + Pending(dist, pts, tolerance, rest)
            && Load(rest) < Load(work)
  {
    var seg := work[k];
    var left, right := work[..k], work[k + 1..];
    assert work == left + [seg] + right && [seg] == [(seg.0, seg.1)];
    WorkConcat(dist, pts, tolerance, left, [seg]);
    WorkConcat(dist, pts, tolerance, left + [seg], right);
    WorkConcat(dist, pts, tolerance, left, right);
    WorkConcat(dist, pts, tolerance, left + right, Halves(dist, pts, tolerance, seg));
    WorkOne(dist, pts, tolerance, seg.0, seg.1);
    HalvesCover(dist, pts, tolerance, seg);
  }

  /** Runs the worklist to the end, taking the segment the policy chooses each time. */
  ghost function Drain<P>(dist: Distance<P>, pts: seq<P>, tolerance: real, pick: seq<Segment> -> nat, work: seq<Segment>): set<nat>
    requires Segments(work, |pts|)
    requires forall w :: w != [] ==> pick(w) < |w|
    decreases Load(work)
  {
    if work == [] then {}
    else
      AnyPickPreserves(dist, pts, tolerance, work, pick(work));
      Mark(dist, pts, tolerance, work[pick(work)]) + Drain(dist, pts, tolerance, pick, Rest(dist, pts, tolerance, work, pick(work)))
  }

  /** The order in which segments leave the worklist does not change which points are kept. */
  lemma {:induction false} OrderDoesNotMatter<P>(dist: Distance<P>, pts: seq<P>, tolerance: real,
                                                 pick: seq<Segment> -> nat, work: seq<Segment>)
    requires Segments(work, |pts|)
    requires forall w :: w != [] ==> pick(w) < |w|
    ensures Drain(dist, pts, tolerance, pick, work) == Pending(dist, pts, tolerance, work)
    decreases Load(work)
  {
    if work != [] {
      AnyPickPreserves(dist, pts, tolerance, work, pick(work));
      OrderDoesNotMatter(dist, pts, tolerance, pick, Rest(dist, pts, tolerance, work, pick(work)));
    }
  }

  // ---- the loops of the source

  /** An explicit stack instead of recursion, a flag per point instead of a result list. */
  method SimplifyIndices<P>(dist: Distance<P>, pts: seq<P>, tolerance: real) returns (out: seq<nat>)
    ensures Lists(out, Simplified(dist, pts, tolerance))
  {
    var n := |pts|;
    if n <= 2 {
      out := seq(n, i => i);
      assert forall x :: x in Simplified(dist, pts, tolerance) ==> out[x] == x;
      return;
    }
    var keep := new bool[n](_ => false);
    ghost var marked := MarkKept(dist, pts, tolerance, keep);
    WorkOne(dist, pts, tolerance, 0, n - 1);
    out := Collect(keep, marked);
  }

  method MarkKept<P>(dist: Distance<P>, pts: seq<P>, tolerance: real, keep: array<bool>) returns (ghost marked: set<nat>)
    requires keep.Length == |pts| > 2 && forall i :: 0 <= i < |pts| ==> !keep[i]
    modifies keep
    ensures Marks(keep, marked) && marked == {0, |pts| - 1} + Pending(dist, pts, tolerance, [(0, |pts| - 1)])
  {
    var n := |pts|;
    keep[0] := true;
    keep[n - 1] := true;
    marked := {0, n - 1};
    var stack: seq<Segment> := [(0, n - 1)];
    ghost var goal := marked + Pending(dist, pts, tolerance, stack);
    while stack != []
      invariant Marks(keep, marked)
      invariant Segments(stack, n) && marked + Pending(dist, pts, tolerance, stack) == goal
      decreases Load(stack)
    {
      var (s, e) := stack[|stack| - 1];
      TakeLast(dist, pts, tolerance, stack);
      ghost var rest := Popped(stack, SplitPoint(dist, pts, tolerance, s, e));
      stack := stack[..|stack| - 1];
      var idx := FindSplit(dist, pts, tolerance, s, e);
      if idx.Some? {
        keep[idx.value] := true;
        marked := marked + {idx.value};
        stack := stack + [(s, idx.value), (idx.value, e)];
      }
      assert stack == rest;
    }
  }

  // The flags set in keep are those of the marked points.
  ghost predicate Marks(keep: array<bool>, marked: set<nat>)
    reads keep
  {
    && (forall i :: 0 <= i < keep.Length ==> (keep[i] <==> i in marked))
    && (forall x :: x in marked ==> x < keep.Length)
  }

  // What the stack becomes when its top is taken off and, if that splits, both halves are pushed.
  ghost function Popped(stack: seq<Segment>, split: Option<nat>): seq<Segment>
    requires stack != []
  {
    var top, rest := stack[|stack| - 1], stack[..|stack| - 1];
    if split.Some? then rest + [(top.0, split.value), (split.value, top.1)] else rest
  }

  // Taking the segment on top of the stack, as the source does.
  lemma TakeLast<P>(dist: Distance<P>, pts: seq<P>, tolerance: real, work: seq<Segment>)
    requires Segments(work, |pts|) && work != []
    ensures var top := work[|work| - 1];
            var split := SplitPoint(dist, pts, tolerance, top.0, top.1);
            var rest := Popped(work, split);
            && Segments(rest, |pts|) && Load(rest) < Load(work)
            && Pending(dist, pts, tolerance, work)
               == (if split.Some? then {split.value} else {}) + Pending(dist, pts, tolerance, rest)
  {
    var k := |work| - 1;
    AnyPickPreserves(dist, pts, tolerance, work, k);
    assert work[..k] + work[k + 1..] == work[..k] && work[..k] + [] == work[..k];
    assert Rest(dist, pts, tolerance, work, k) == Popped(work, SplitPoint(dist, pts, tolerance, work[k].0, work[k].1));
  }

  /** The inner scan for the first of the farthest interior points, and the test against the tolerance. */
  method FindSplit<P>(dist: Distance<P>, pts: seq<P>, tolerance: real, s: nat, e: nat) returns (split: Option<nat>)
    requires s < e < |pts|
    ensures split == SplitPoint(dist, pts, tolerance, s, e)
  {
    var maxD, idx: Option<nat> := 0.0, None;
    for i := s + 1 to e
      invariant idx.None? ==> maxD == 0.0 && forall j :: s < j < i ==> Off(dist, pts, s, e, j) <= 0.0
      invariant idx.Some? ==> Farthest(dist, pts, s, e, i, idx.value) && maxD == Off(dist, pts, s, e, idx.value)
    {
      var d := dist(pts[i], pts[s], pts[e]);
      assert d == Off(dist, pts, s, e, i);
      if d > maxD {
        maxD, idx := d, Some(i);
      }
    }
    if idx.Some? && maxD > tolerance {
      SplitIsUnique(dist, pts, tolerance, s, e, idx.value);
      return idx;
    }
    return None;
  }

  /** The final pass: the indices whose flag is set, in order. */
  method Collect(keep: array<bool>, ghost marked: set<nat>) returns (out: seq<nat>)
    requires Marks(keep, marked)
    ensures Lists(out, marked)
  {
    out := [];
    for i := 0 to keep.Length
      invariant Ascends(out)
      invariant forall x :: x in out <==> 0 <= x < i && x in marked
    {
      if keep[i] {
        assert forall j :: 0 <= j < |out| ==> out[j] in out;
        out := out + [i];
      }
    }
  }

  // ---- what the result promises

  /** Points between two neighbouring kept ones are within the tolerance of the segment joining these. */
  lemma {:induction false} KeptIsClose<P>(dist: Distance<P>, pts: seq<P>, tolerance: real, s: nat, e: nat, x: nat, y: nat)
    requires s <= x < y <= e < |pts|
    requires x in Kept(dist, pts, tolerance, s, e) + {s, e} && y in Kept(dist, pts, tolerance, s, e) + {s, e}
    requires forall z :: x < z < y ==> z !in Kept(dist, pts, tolerance, s, e)
    ensures Flat(dist, pts, tolerance, x, y)
    decreases e - s
  {
    var split := SplitPoint(dist, pts, tolerance, s, e);
    if split.Some? {
      assert split.value in Kept(dist, pts, tolerance, s, e);
      if y <= split.value {
        KeptIsClose(dist, pts, tolerance, s, split.value, x, y);
      } else {
        KeptIsClose(dist, pts, tolerance, split.value, e, x, y);
      }
    } else {
      NoSplitIsFlat(dist, pts, tolerance, s, e);
    }
  }

  /** Both ends are kept, and every dropped point is within the tolerance of the segment between its kept neighbours. */
  lemma DroppedPointsAreClose<P>(dist: Distance<P>, pts: seq<P>, tolerance: real, i: nat) returns (x: nat, y: nat)
    requires 0.0 <= tolerance && i < |pts| && i !in Simplified(dist, pts, tolerance)
    ensures 0 in Simplified(dist, pts, tolerance) && |pts| - 1 in Simplified(dist, pts, tolerance)
    ensures x < i < y < |pts| && x in Simplified(dist, pts, tolerance) && y in Simplified(dist, pts, tolerance)
    ensures forall z :: x < z < y ==> z !in Simplified(dist, pts, tolerance)
    ensures dist(pts[i], pts[x], pts[y]) <= tolerance
  {
    var kept := Simplified(dist, pts, tolerance);
    x, y := i - 1, i + 1;
    while x !in kept
      invariant 0 <= x < i
      invariant forall z :: x < z <= i ==> z !in kept
      decreases x
    {
      x := x - 1;
    }
    while y !in kept
      invariant i < y < |pts|
      invariant forall z :: i <= z < y ==> z !in kept
      decreases |pts| - y
    {
      y := y + 1;
    }
    KeptIsClose(dist, pts, tolerance, 0, |pts| - 1, x, y);
    assert Off(dist, pts, x, y, i) <= tolerance;
  }

  /** k was kept because it was off the segment between two kept points by more than the tolerance, further than
      anything before it and at least as far as anything after it. */
  ghost predicate StandsOut<P>(dist: Distance<P>, pts: seq<P>, tolerance: real, s: nat, e: nat, k: nat)
    requires s < k < e < |pts|
  {
    && dist(pts[k], pts[s], pts[e]) > tolerance
    && (forall i :: s < i < k ==> Off(dist, pts, s, e, i) < Off(dist, pts, s, e, k))
    && (forall i :: k < i < e ==> Off(dist, pts, s, e, i) <= Off(dist, pts, s, e, k))
  }

  lemma {:induction false} KeptStandsOut<P>(dist: Distance<P>, pts: seq<P>, tolerance: real, s: nat, e: nat, k: nat) returns (x: nat, y: nat)
    requires s < e < |pts| && k in Kept(dist, pts, tolerance, s, e)
    ensures x < k < y < |pts| && StandsOut(dist, pts, tolerance, x, y, k)
    ensures x in Kept(dist, pts, tolerance, s, e) + {s, e} && y in Kept(dist, pts, tolerance, s, e) + {s, e}
    decreases e - s
  {
    var split := SplitPoint(dist, pts, tolerance, s, e).value;
    if k < split {
      x, y := KeptStandsOut(dist, pts, tolerance, s, split, k);
    } else if split < k {
      x, y := KeptStandsOut(dist, pts, tolerance, split, e, k);
    } else {
      x, y := s, e;
      assert Splits(dist, pts, tolerance, s, e, k);
      assert Off(dist, pts, s, e, k) == dist(pts[k], pts[s], pts[e]);
    }
  }

  /** Nothing is kept without need: each kept point other than the two ends stands out from the segment between two
      other kept points by more than the tolerance. */
  lemma KeptPointsStandOut<P>(dist: Distance<P>, pts: seq<P>, tolerance: real, k: nat) returns (x: nat, y: nat)
    requires k in Simplified(dist, pts, tolerance) && 0 < k < |pts| - 1
    ensures x in Simplified(dist, pts, tolerance) && y in Simplified(dist, pts, tolerance)
    ensures x < k < y < |pts| && StandsOut(dist, pts, tolerance, x, y, k)
  {
    x, y := KeptStandsOut(dist, pts, tolerance, 0, |pts| - 1, k);
  }

  // r lists the kept indices of pts and q holds the points kept, in the same order.
  ghost predicate Copies<P>(pts: seq<P>, r: seq<nat>, q: seq<P>) {
    && |q| == |r|
    && forall j :: 0 <= j < |r| ==> r[j] < |pts| && q[j] == pts[r[j]]
  }

  // From a to b, r lists exactly what the segment between them keeps.
  ghost predicate ListsKept<P>(dist: Distance<P>, pts: seq<P>, tolerance: real, r: seq<nat>, a: nat, b: nat)
    requires a < b < |r| && r[a] < r[b] < |pts|
  {
    forall x :: x in Kept(dist, pts, tolerance, r[a], r[b]) <==> x in r && r[a] < x < r[b]
  }

  // The split is on the list, and each half lists what its own segment keeps.
  lemma HalvesListKept<P>(dist: Distance<P>, pts: seq<P>, tolerance: real, r: seq<nat>, a: nat, b: nat) returns (c: nat)
    requires Ascends(r) && a < b < |r| && r[b] < |pts| && ListsKept(dist, pts, tolerance, r, a, b)
    requires SplitPoint(dist, pts, tolerance, r[a], r[b]).Some?
    ensures a < c < b && SplitPoint(dist, pts, tolerance, r[a], r[b]) == Some(r[c])
    ensures ListsKept(dist, pts, tolerance, r, a, c) && ListsKept(dist, pts, tolerance, r, c, b)
  {
    var k := SplitPoint(dist, pts, tolerance, r[a], r[b]).value;
    assert k in Kept(dist, pts, tolerance, r[a], r[b]);
    c :| c < |r| && r[c] == k;
  }

  // What the list keeps of a segment, its copy keeps again.
  lemma {:induction false} KeptAgain<P>(dist: Distance<P>, pts: seq<P>, tolerance: real, r: seq<nat>, q: seq<P>, a: nat, b: nat)
    requires Copies(pts, r, q) && Ascends(r) && a < b < |r| && ListsKept(dist, pts, tolerance, r, a, b)
    ensures forall j: nat :: j in Kept(dist, q, tolerance, a, b) <==> a < j < b
    decreases b - a
  {
    if SplitPoint(dist, pts, tolerance, r[a], r[b]).Some? {
      var c := HalvesListKept(dist, pts, tolerance, r, a, b);
      KeptAgain(dist, pts, tolerance, r, q, a, c);
      KeptAgain(dist, pts, tolerance, r, q, c, b);
      SplitsAgain(dist, pts, tolerance, r, q, a, b, c);
      SplitIsUnique(dist, q, tolerance, a, b, c);
    } else {
      NothingBetween(r, a, b);
    }
  }

  lemma NothingBetween(r: seq<nat>, a: nat, b: nat)
    requires a < b < |r| && Ascends(r)
    requires forall x :: x in r ==> !(r[a] < x < r[b])
    ensures b == a + 1
  {
    assert r[a + 1] in r;
  }

  // The first farthest point is still the first farthest among the points that were kept.
  lemma SplitsAgain<P>(dist: Distance<P>, pts: seq<P>, tolerance: real, r: seq<nat>, q: seq<P>, a: nat, b: nat, c: nat)
    requires Copies(pts, r, q) && Ascends(r) && a < b < |r| && c < |r|
    requires Splits(dist, pts, tolerance, r[a], r[b], r[c])
    ensures Splits(dist, q, tolerance, a, b, c)
  {
    assert Off(dist, q, a, b, c) == Off(dist, pts, r[a], r[b], r[c]);
    forall i: nat | a < i < b ensures Off(dist, q, a, b, i) == Off(dist, pts, r[a], r[b], r[i]) {
    }
  }

  /** Simplifying a simplified track drops nothing more. */
  lemma Idempotent<P>(dist: Distance<P>, pts: seq<P>, tolerance: real, r: seq<nat>, q: seq<P>)
    requires Lists(r, Simplified(dist, pts, tolerance)) && Copies(pts, r, q)
    ensures forall j: nat :: j in Simplified(dist, q, tolerance) <==> j < |q|
  {
    if |q| > 2 {
      assert r[0] < r[1] < r[2] && r[2] in r;
      FirstAndLast(r, Simplified(dist, pts, tolerance), |pts| - 1);
      assert ListsKept(dist, pts, tolerance, r, 0, |q| - 1);
      KeptAgain(dist, pts, tolerance, r, q, 0, |q| - 1);
    }
  }

  lemma FirstAndLast(r: seq<nat>, all: set<nat>, m: nat)
    requires Lists(r, all) && 0 in all && m in all && forall x :: x in all ==> x <= m
    ensures |r| > 0 && r[0] == 0 && r[|r| - 1] == m
  {
    var i: nat :| i < |r| && r[i] == 0;
    var j: nat :| j < |r| && r[j] == m;
    assert r[|r| - 1] in r;
  }
}
