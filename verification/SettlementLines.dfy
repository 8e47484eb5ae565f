/** The lines of a settlement row: whose they are, their time, and the penalty lines that belong behind a trip. */
module SettlementLines {
  import opened Basics
  import opened StableSort

  datatype Kind = TripLine | PenaltyLine | ChargeLine
  datatype Line = Line(kind: Kind, ref: Id, at: int, amount: int)

  function LineTime(l: Line): int {
    l.at
  }

  function RefersTo(refs: set<Id>): Line -> bool {
    (l: Line) => l.ref in refs
  }

  /** The lines that refer to one of the given facts, in their order. */
  function Only(s: seq<Line>, refs: set<Id>): seq<Line> {
    Keep(s, RefersTo(refs))
  }

  // ---- penalty lines stay behind their trip

  predicate IsTripOf(a: Line, b: Line) {
    a.kind.TripLine? && a.ref == b.ref && a.at == b.at
  }

  /** Every penalty line stands immediately after the line of its own trip. */
  ghost predicate Paired(s: seq<Line>) {
    forall i :: 0 <= i < |s| && s[i].kind.PenaltyLine? ==> i > 0 && IsTripOf(s[i - 1], s[i])
  }

  lemma {:induction false} InsertKeepsPairs(s: seq<Line>, x: Line)
    requires Paired(s) && !x.kind.PenaltyLine?
    ensures Paired(Insert(s, x, LineTime))
  {
    if s != [] && s[|s| - 1].at > x.at {
      InsertKeepsPairs(s[..|s| - 1], x);
      if s[|s| - 1].kind.PenaltyLine? {
        assert Insert(s[..|s| - 1], x, LineTime) == Insert(s[..|s| - 2], x, LineTime) + [s[|s| - 2]] by {
          assert s[..|s| - 1][..|s| - 2] == s[..|s| - 2];
        }
      }
    }
  }

  // A trip line and its penalty line, inserted one after the other, end up side by side.
  lemma {:induction false} InsertPairKeepsPairs(s: seq<Line>, a: Line, b: Line)
    requires Paired(s) && IsTripOf(a, b)
    ensures Paired(Insert(Insert(s, a, LineTime), b, LineTime))
  {
    var t := Insert(s, a, LineTime);
    if s == [] || s[|s| - 1].at <= a.at {
      assert Insert(t, b, LineTime) == s + [a] + [b];
    } else {
      var last, rest := s[|s| - 1], s[..|s| - 1];
      InsertPairKeepsPairs(rest, a, b);
      assert t[..|t| - 1] == Insert(rest, a, LineTime);
      assert Insert(t, b, LineTime) == Insert(Insert(rest, a, LineTime), b, LineTime) + [last];
      if last.kind.PenaltyLine? {
        var trip := rest[|rest| - 1];
        assert trip.at > a.at;
        var u := Insert(rest, a, LineTime);
        assert u[|u| - 1] == trip && Insert(u, b, LineTime)[|u|] == trip;
      }
    }
  }
}
