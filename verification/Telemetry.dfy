/** Telemetry of an ongoing trip: which alarms a batch of points raises, and the running maximum of the distance
    from the planned route. Batches are handled one at a time and may arrive in any order. */
module Telemetry {
  import opened Basics
  import opened StableSort

  datatype Kind = Overspeed | LowSoc | Deviation | SignOn | SignOff

  /** A stored trip event; live says it was raised by a batch of telemetry, and times are in seconds. */
  datatype Event = Event(kind: Kind, at: int, live: bool)

  /** A telemetry point; placed says it has a position, and off is then its distance from the planned route in
      metres, when the trip has a route. */
  datatype Point = Point(at: int, speed: Option<real>, soc: Option<real>, placed: bool, off: Option<real>, sign: Option<bool>)

  function IsPlaced(p: Point): bool {
    p.placed
  }

  function OffRoute(p: Point): Option<real> {
    if p.placed then p.off else None
  }

  datatype Limits = Limits(speed: real, soc: real)

  const COOLDOWN := 120
  const DEVIATION: real := 1000.0

  function MaxReal(a: real, b: real): real {
    if a >= b then a else b
  }

  function PointTime(p: Point): int {
    p.at
  }

  /** The points of a batch in order of time, equal times as they came. */
  function Sorted(ps: seq<Point>): seq<Point> {
    Sort(ps, PointTime)
  }

  // ---- one batch

  /** The state of the loop: the last time of each kind, the kinds fired in this batch, the events raised,
      the roof sign, and the largest distance so far. */
  datatype Progress = Progress(last: map<Kind, int>, fired: set<Kind>, raised: seq<Event>, signOn: bool, maxOff: real)

  predicate CanFire(g: Progress, k: Kind, at: int) {
    k !in g.fired && (k in g.last ==> at - g.last[k] >= COOLDOWN)
  }

  function Fire(g: Progress, k: Kind, at: int): Progress {
    g.(fired := g.fired + {k}, last := g.last[k := at], raised := g.raised + [Event(k, at, true)])
  }

  function When(g: Progress, alarm: bool, k: Kind, at: int): Progress {
    if alarm && CanFire(g, k, at) then Fire(g, k, at) else g
  }

  function AfterDistance(g: Progress, p: Point): Progress {
    var off := OffRoute(p);
    if off.None? then g
    else When(g.(maxOff := MaxReal(g.maxOff, off.value)), off.value > DEVIATION, Deviation, p.at)
  }

  /** The sign's state follows the point only when the change could be recorded. */
  function AfterSign(g: Progress, p: Point): Progress {
    if p.sign.None? || p.sign.value == g.signOn then g
    else
      var k := if p.sign.value then SignOn else SignOff;
      if CanFire(g, k, p.at) then Fire(g, k, p.at).(signOn := p.sign.value) else g
  }

  function AfterPoint(g: Progress, p: Point, l: Limits): Progress {
    var g1 := When(g, p.speed.Some? && p.speed.value > l.speed, Overspeed, p.at);
    var g2 := When(g1, p.soc.Some? && p.soc.value < l.soc, LowSoc, p.at);
    AfterSign(AfterDistance(g2, p), p)
  }

  function AfterPoints(g: Progress, ps: seq<Point>, l: Limits): Progress {
    if ps == [] then g else AfterPoint(AfterPoints(g, ps[..|ps| - 1], l), ps[|ps| - 1], l)
  }

  // ---- the trip's rows

  datatype Trip = Trip(log: seq<Event>, track: seq<Point>, devMax: Option<real>, devFlag: bool)

  /** max(ts) per type. */
  function LastTimes(log: seq<Event>): map<Kind, int> {
    if log == [] then map[]
    else
      var m, e := LastTimes(log[..|log| - 1]), log[|log| - 1];
      m[e.kind := if e.kind in m then Max(m[e.kind], e.at) else e.at]
  }

  /** The sign is on when the last sign-on is later than the last sign-off. */
  predicate SignIsOn(last: map<Kind, int>) {
    SignOn in last && (SignOff in last ==> last[SignOn] > last[SignOff])
  }

  /** One decimal place, half up; distances are never negative. */
  function Round1(x: real): real {
    (x * 10.0 + 0.5).Floor as real / 10.0
  }

  function OrZero(x: Option<real>): real {
    if x.Some? then x.value else 0.0
  }

  /** An event whose insert fails is raised all the same but not stored. */
  function Stored(raised: seq<Event>, lost: set<Kind>): seq<Event> {
    if raised == [] then []
    else
      var e, rest := raised[|raised| - 1], Stored(raised[..|raised| - 1], lost);
      if e.kind in lost then rest else rest + [e]
  }

  function Start(t: Trip): Progress {
    Progress(LastTimes(t.log), {}, [], SignIsOn(LastTimes(t.log)), 0.0)
  }

  function Handled(t: Trip, batch: seq<Point>, l: Limits, lost: set<Kind>): Trip {
    var g := AfterPoints(Start(t), Sorted(batch), l);
    Trip(t.log + Stored(g.raised, lost), t.track + Keep(Sorted(batch), IsPlaced),
         if g.maxOff > 0.0 then Some(MaxReal(OrZero(t.devMax), Round1(g.maxOff))) else t.devMax,
         t.devFlag || g.maxOff > DEVIATION)
  }

  datatype Action = Batch(points: seq<Point>, limits: Limits, lost: set<Kind>)
                  | Elsewhere(kind: Kind, at: int)   // another part of the program stores an event

  function Step(t: Trip, a: Action): Trip {
    match a
    case Batch(ps, l, lost) => Handled(t, ps, l, lost)
    case Elsewhere(k, at) => t.(log := t.log + [Event(k, at, false)])
  }

  function Run(actions: seq<Action>): Trip {
    if actions == [] then Trip([], [], None, false)
    else Step(Run(actions[..|actions| - 1]), actions[|actions| - 1])
  }

  // ---- alarms: at most one of a kind in a batch, never within the cooldown of an earlier one

  /** What holds while a batch is worked through, given the last times it started with. */
  ghost predicate Calm(g: Progress, last: map<Kind, int>) {
    && (forall i :: 0 <= i < |g.raised| ==> g.raised[i].live && g.raised[i].kind in g.fired)
    && (forall i, j :: 0 <= i < j < |g.raised| ==> g.raised[i].kind != g.raised[j].kind)
    && (forall i :: 0 <= i < |g.raised| && g.raised[i].kind in last ==> g.raised[i].at >= last[g.raised[i].kind] + COOLDOWN)
    && (forall k :: k !in g.fired ==> (k in g.last <==> k in last) && (k in last ==> g.last[k] == last[k]))
  }

  lemma FireKeepsCalm(g: Progress, last: map<Kind, int>, k: Kind, at: int)
    requires Calm(g, last) && CanFire(g, k, at)
    ensures Calm(Fire(g, k, at), last)
  {
  }

  lemma WhenKeepsCalm(g: Progress, last: map<Kind, int>, alarm: bool, k: Kind, at: int)
    requires Calm(g, last)
    ensures Calm(When(g, alarm, k, at), last)
  {
    if alarm && CanFire(g, k, at) {
      FireKeepsCalm(g, last, k, at);
    }
  }

  lemma PointKeepsCalm(g: Progress, last: map<Kind, int>, p: Point, l: Limits)
    requires Calm(g, last)
    ensures Calm(AfterPoint(g, p, l), last)
  {
    var g1 := When(g, p.speed.Some? && p.speed.value > l.speed, Overspeed, p.at);
    WhenKeepsCalm(g, last, p.speed.Some? && p.speed.value > l.speed, Overspeed, p.at);
    var g2 := When(g1, p.soc.Some? && p.soc.value < l.soc, LowSoc, p.at);
    WhenKeepsCalm(g1, last, p.soc.Some? && p.soc.value < l.soc, LowSoc, p.at);
    var off := OffRoute(p);
    if off.Some? {
      WhenKeepsCalm(g2.(maxOff := MaxReal(g2.maxOff, off.value)), last, off.value > DEVIATION, Deviation, p.at);
    }
    var g3 := AfterDistance(g2, p);
    SignKeepsCalm(g3, last, p);
  }

  lemma SignKeepsCalm(g: Progress, last: map<Kind, int>, p: Point)
    requires Calm(g, last)
    ensures Calm(AfterSign(g, p), last)
  {
    if p.sign.Some? && p.sign.value != g.signOn {
      var k := if p.sign.value then SignOn else SignOff;
      if CanFire(g, k, p.at) {
        FireKeepsCalm(g, last, k, p.at);
      }
    }
  }

  lemma {:induction false} PointsKeepCalm(g: Progress, last: map<Kind, int>, ps: seq<Point>, l: Limits)
    requires Calm(g, last)
    ensures Calm(AfterPoints(g, ps, l), last)
  {
    if ps != [] {
      PointsKeepCalm(g, last, ps[..|ps| - 1], l);
      PointKeepsCalm(AfterPoints(g, ps[..|ps| - 1], l), last, ps[|ps| - 1], l);
    }
  }

  lemma {:induction false} LastTimesBound(log: seq<Event>, i: nat)
    requires i < |log|
    ensures log[i].kind in LastTimes(log) && log[i].at <= LastTimes(log)[log[i].kind]
  {
    if i < |log| - 1 {
      LastTimesBound(log[..|log| - 1], i);
    }
  }

  /** Every live event comes at least the cooldown after every event of its kind stored before it. */
  ghost predicate Spaced(log: seq<Event>) {
    forall i, j :: 0 <= i < j < |log| && log[i].kind == log[j].kind && log[j].live ==> log[i].at + COOLDOWN <= log[j].at
  }

  // Dropping the lost ones leaves raised events of different kinds.
  lemma {:induction false} StoredAreRaised(raised: seq<Event>, lost: set<Kind>)
    requires forall i, j :: 0 <= i < j < |raised| ==> raised[i].kind != raised[j].kind
    ensures forall e :: e in Stored(raised, lost) ==> e in raised
    ensures forall i, j :: 0 <= i < j < |Stored(raised, lost)| ==> Stored(raised, lost)[i].kind != Stored(raised, lost)[j].kind
  {
    if raised != [] {
      var e, rest := raised[|raised| - 1], raised[..|raised| - 1];
      StoredAreRaised(rest, lost);
      forall i | 0 <= i < |Stored(rest, lost)| ensures Stored(rest, lost)[i].kind != e.kind {
        var d := Stored(rest, lost)[i];
        assert d in Stored(rest, lost);
        assert d in rest;
      }
    }
  }

  lemma AppendKeepsSpaced(log: seq<Event>, more: seq<Event>)
    requires Spaced(log)
    requires forall i, j :: 0 <= i < j < |more| ==> more[i].kind != more[j].kind
    requires forall i :: 0 <= i < |more| && more[i].kind in LastTimes(log) ==> more[i].at >= LastTimes(log)[more[i].kind] + COOLDOWN
    ensures Spaced(log + more)
  {
    var all := log + more;
    forall i, j | 0 <= i < j < |all| && all[i].kind == all[j].kind && all[j].live ensures all[i].at + COOLDOWN <= all[j].at {
      if i < |log| {
        LastTimesBound(log, i);
      }
    }
  }

  lemma BatchKeepsSpaced(t: Trip, batch: seq<Point>, l: Limits, lost: set<Kind>)
    requires Spaced(t.log)
    ensures Spaced(Handled(t, batch, l, lost).log)
  {
    var last := LastTimes(t.log);
    PointsKeepCalm(Start(t), last, Sorted(batch), l);
    var raised := AfterPoints(Start(t), Sorted(batch), l).raised;
    StoredAreRaised(raised, lost);
    var more := Stored(raised, lost);
    forall i | 0 <= i < |more| && more[i].kind in last ensures more[i].at >= last[more[i].kind] + COOLDOWN {
      assert more[i] in more;
      assert more[i] in raised;
    }
    AppendKeepsSpaced(t.log, more);
  }

  /** A batch stores at most one event of a kind. */
  lemma OneOfAKindPerBatch(t: Trip, batch: seq<Point>, l: Limits, lost: set<Kind>, i: nat, j: nat)
    requires |t.log| <= i < j < |Handled(t, batch, l, lost).log|
    ensures Handled(t, batch, l, lost).log[i].kind != Handled(t, batch, l, lost).log[j].kind
  {
    PointsKeepCalm(Start(t), LastTimes(t.log), Sorted(batch), l);
    StoredAreRaised(AfterPoints(Start(t), Sorted(batch), l).raised, lost);
  }

  lemma {:induction false} EveryRunIsSpaced(actions: seq<Action>)
    ensures Spaced(Run(actions).log)
  {
    if actions != [] {
      var t, a := Run(actions[..|actions| - 1]), actions[|actions| - 1];
      EveryRunIsSpaced(actions[..|actions| - 1]);
      match a
      case Batch(ps, l, lost) => BatchKeepsSpaced(t, ps, l, lost);
      case Elsewhere(_, _) =>
    }
  }

  /** Over any sequence of batches, in any order of arrival, two live events of a kind are stored in order of time
      and at least two minutes apart. */
  lemma LiveEventsKeepApart(actions: seq<Action>, i: nat, j: nat)
    requires var log := Run(actions).log; i < j < |log| && log[i].kind == log[j].kind && log[j].live
    ensures var log := Run(actions).log; log[i].at + 120 <= log[j].at
  {
    EveryRunIsSpaced(actions);
  }

  // ---- the running maximum

  /** MaxDeviation over a trip's points, as the summary computes it at the end. */
  function MaxOff(ps: seq<Point>): real {
    if ps == [] then 0.0
    else
      var m, p := MaxOff(ps[..|ps| - 1]), ps[|ps| - 1];
      if OffRoute(p).Some? && OffRoute(p).value > m then OffRoute(p).value else m
  }

  lemma {:induction false} MaxOffOfBoth(a: seq<Point>, b: seq<Point>)
    ensures MaxOff(a + b) == MaxReal(MaxOff(a), MaxOff(b)) && MaxOff(a) >= 0.0
    decreases |a| + |b|
  {
    if b != [] {
      MaxOffOfBoth(a, b[..|b| - 1]);
      assert (a + b)[..|a + b| - 1] == a + b[..|b| - 1];
    } else {
      assert a + b == a;
      if a != [] {
        MaxOffOfBoth(a[..|a| - 1], b);
        assert a[..|a| - 1] + b == a[..|a| - 1];
      }
    }
  }

  // Points without a position do not count.
  lemma {:induction false} MaxOffOfPlaced(ps: seq<Point>)
    ensures MaxOff(Keep(ps, IsPlaced)) == MaxOff(ps)
  {
    if ps != [] {
      MaxOffOfPlaced(ps[..|ps| - 1]);
      if IsPlaced(ps[|ps| - 1]) {
        assert Keep(ps, IsPlaced)[..|Keep(ps[..|ps| - 1], IsPlaced)|] == Keep(ps[..|ps| - 1], IsPlaced);
      }
    }
  }

  lemma {:induction false} MaxOffIsGathered(g: Progress, ps: seq<Point>, l: Limits)
    requires g.maxOff >= 0.0
    ensures AfterPoints(g, ps, l).maxOff == MaxReal(g.maxOff, MaxOff(ps))
  {
    if ps != [] {
      MaxOffIsGathered(g, ps[..|ps| - 1], l);
      PointMovesMax(AfterPoints(g, ps[..|ps| - 1], l), ps[|ps| - 1], l);
    } else {
      assert MaxOff(ps) == 0.0;
    }
  }

  lemma PointMovesMax(g: Progress, p: Point, l: Limits)
    ensures AfterPoint(g, p, l).maxOff == if OffRoute(p).Some? then MaxReal(g.maxOff, OffRoute(p).value) else g.maxOff
  {
  }

  lemma RoundingIsMonotone(x: real, y: real)
    requires x <= y
    ensures Round1(x) <= Round1(y)
  {
    assert (x * 10.0 + 0.5).Floor <= (y * 10.0 + 0.5).Floor;
  }

  /** Rounding gives the nearest whole number of tenths, the upper one of two that are as near. */
  lemma RoundingIsNearest(x: real)
    ensures x - 0.05 < Round1(x) <= x + 0.05
    ensures (Round1(x) * 10.0).Floor as real == Round1(x) * 10.0
  {
    var n := (x * 10.0 + 0.5).Floor;
    assert Round1(x) * 10.0 == n as real;
  }

  lemma ZeroRoundsToZero()
    ensures Round1(0.0) == 0.0
  {
    assert (0.5 as real).Floor == 0;
  }

  ghost predicate MaxStands(t: Trip) {
    OrZero(t.devMax) == Round1(MaxOff(t.track)) && (t.devFlag <==> MaxOff(t.track) > DEVIATION)
  }

  lemma BatchKeepsMax(t: Trip, batch: seq<Point>, l: Limits, lost: set<Kind>)
    requires MaxStands(t)
    ensures MaxStands(Handled(t, batch, l, lost))
  {
    var m, n := MaxOff(t.track), MaxOff(Sorted(batch));
    MaxOffOfPlaced(Sorted(batch));
    MaxOffOfBoth(t.track, Keep(Sorted(batch), IsPlaced));
    MaxOffIsMax(Sorted(batch));
    MaxOffIsGathered(Start(t), Sorted(batch), l);
    if n <= m {
      RoundingIsMonotone(n, m);
    } else {
      RoundingIsMonotone(m, n);
    }
  }

  lemma {:induction false} EveryRunKeepsMax(actions: seq<Action>)
    ensures MaxStands(Run(actions))
  {
    if actions == [] {
      ZeroRoundsToZero();
    } else {
      var t, a := Run(actions[..|actions| - 1]), actions[|actions| - 1];
      EveryRunKeepsMax(actions[..|actions| - 1]);
      match a
      case Batch(ps, l, lost) => BatchKeepsMax(t, ps, l, lost);
      case Elsewhere(_, _) =>
    }
  }

  lemma {:induction false} MaxOffIsMax(ps: seq<Point>)
    ensures MaxOff(ps) >= 0.0
    ensures forall p :: p in ps && OffRoute(p).Some? ==> OffRoute(p).value <= MaxOff(ps)
    ensures MaxOff(ps) == 0.0 || exists p :: p in ps && OffRoute(p) == Some(MaxOff(ps))
  {
    if ps != [] {
      var rest, last := ps[..|ps| - 1], ps[|ps| - 1];
      MaxOffIsMax(rest);
      assert ps == rest + [last];
    }
  }

  /** The order of the points does not matter, so the offline maximum may take them by time. */
  lemma MaxOffIgnoresOrder(a: seq<Point>, b: seq<Point>)
    requires multiset(a) == multiset(b)
    ensures MaxOff(a) == MaxOff(b)
  {
    MaxOffIsMax(a);
    MaxOffIsMax(b);
    assert forall p :: p in a <==> p in multiset(a);
    assert forall p :: p in b <==> p in multiset(b);
  }

  /** The stored running maximum is the rounded maximum over all points, as if computed offline at the end. */
  lemma RunningMaximumIsOffline(actions: seq<Action>)
    ensures OrZero(Run(actions).devMax) == Round1(MaxOff(Run(actions).track))
    ensures Run(actions).devFlag <==> MaxOff(Run(actions).track) > DEVIATION
  {
    EveryRunKeepsMax(actions);
  }

  /** The summary raises its own flag on the rounded maximum; it misses what the live flag saw exactly when
      the maximum is above the threshold by less than the rounding. */
  lemma SummaryFlagDiffersIff(actions: seq<Action>)
    ensures var m := MaxOff(Run(actions).track);
            (Run(actions).devFlag != (Round1(m) > DEVIATION)) <==> 1000.0 < m < 1000.05
  {
    EveryRunKeepsMax(actions);
    var m := MaxOff(Run(actions).track);
    RoundedAboveThreshold(m);
  }

  /** A run where they differ: one point two centimetres beyond the threshold. */
  lemma SummaryCanMissALiveFlag(at: int)
    ensures var p := Point(at, None, None, true, Some(1000.02), None);
            var t := Run([Batch([p], Limits(80.0, 20.0), {})]);
            t.devFlag && t.devMax == Some(1000.0) && !(Round1(MaxOff(t.track)) > DEVIATION)
  {
    var p := Point(at, None, None, true, Some(1000.02), None);
    var batch := [Batch([p], Limits(80.0, 20.0), {})];
    var points := [p];
    assert batch[..0] == [] && points[..0] == [];
    var none := Run(batch[..0]);
    assert none == Trip([], [], None, false);
    assert Sorted(points) == points && Keep(points, IsPlaced) == points;
    assert MaxOff(points[..0]) == 0.0 && MaxOff(points) == 1000.02;
    MaxOffIsGathered(Start(none), points, Limits(80.0, 20.0));
    assert Run(batch) == Handled(none, points, Limits(80.0, 20.0), {});
    assert Run(batch).track == points;
    assert (10000.7 as real).Floor == 10000;
    assert Round1(1000.02) == 1000.0;
  }

  /** The stored maximum never goes down and the flag never comes off, whatever arrives. */
  lemma DeviationNeverFalls(t: Trip, a: Action)
    ensures var u := Step(t, a); OrZero(u.devMax) >= OrZero(t.devMax) && (t.devFlag ==> u.devFlag)
  {
  }

  lemma RoundedAboveThreshold(m: real)
    ensures Round1(m) > 1000.0 <==> m >= 1000.05
  {
    var f := (m * 10.0 + 0.5).Floor;
    assert f >= 10001 <==> m * 10.0 + 0.5 >= 10001.0;
    assert Round1(m) > 1000.0 <==> f >= 10001;
  }

  // ---- the loop itself

  class OngoingTrip {
    var log: seq<Event>
    var track: seq<Point>
    var devMax: Option<real>
    var devFlag: bool

    constructor ()
      ensures State() == Trip([], [], None, false)
    {
      log, track, devMax, devFlag := [], [], None, false;
    }

    function State(): Trip
      reads this
    {
      Trip(log, track, devMax, devFlag)
    }

    method MarkDeviation(metres: real, flag: bool)
      modifies `devMax, `devFlag
      ensures devFlag == (old(devFlag) || flag) && devMax == Some(MaxReal(OrZero(old(devMax)), metres))
    {
      devFlag := devFlag || flag;
      devMax := Some(MaxReal(OrZero(devMax), metres));
    }

    method OnTelemetry(batch: seq<Point>, l: Limits, lost: set<Kind>)
      requires Spaced(log) && MaxStands(State())
      modifies this
      ensures State() == Handled(old(State()), batch, l, lost)
      ensures Spaced(log) && MaxStands(State())
    {
      BatchKeepsSpaced(State(), batch, l, lost);
      BatchKeepsMax(State(), batch, l, lost);
      var sorted := Sorted(batch);
      var placed := Track(sorted);
      track := track + placed;
      var g := Raise(sorted, l);
      log := log + Stored(g.raised, lost);
      if g.maxOff > 0.0 {
        MarkDeviation(Round1(g.maxOff), g.maxOff > DEVIATION);
      }
    }

    method Track(sorted: seq<Point>) returns (placed: seq<Point>)
      ensures placed == Keep(sorted, IsPlaced)
    {
      placed := [];
      for i := 0 to |sorted|
        invariant placed == Keep(sorted[..i], IsPlaced)
      {
        KeepAppends(sorted[..i], sorted[i], IsPlaced);
        assert sorted[..i] + [sorted[i]] == sorted[..i + 1];
        if !sorted[i].placed {
          continue;
        }
        placed := placed + [sorted[i]];
      }
      assert sorted[..|sorted|] == sorted;
    }

    method Raise(sorted: seq<Point>, l: Limits) returns (g: Progress)
      ensures g == AfterPoints(Progress(LastTimes(log), {}, [], SignIsOn(LastTimes(log)), 0.0), sorted, l)
    {
      g := Progress(LastTimes(log), {}, [], SignIsOn(LastTimes(log)), 0.0);
      ghost var g0 := g;
      for i := 0 to |sorted|
        invariant g == AfterPoints(g0, sorted[..i], l)
      {
        assert sorted[..i + 1][..i] == sorted[..i];
        g := AfterPoint(g, sorted[i], l);
      }
      assert sorted[..|sorted|] == sorted;
    }
  }
}
