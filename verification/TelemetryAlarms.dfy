/** Which point of a batch raises which alarm, said on the points and the stored events. */
module TelemetryAlarms {
  import opened Basics
  import opened StableSort
  import opened Telemetry

  /** What a point shows that an event of the kind is about. */
  predicate Shows(p: Point, k: Kind, l: Limits) {
    match k
    case Overspeed => p.speed.Some? && p.speed.value > l.speed
    case LowSoc => p.soc.Some? && p.soc.value < l.soc
    case Deviation => p.placed && p.off.Some? && p.off.value > 1000.0
    case SignOn => p.sign == Some(true)
    case SignOff => p.sign == Some(false)
  }

  /** No event of the kind is stored from the two minutes before, or from later. */
  predicate Due(log: seq<Event>, k: Kind, at: int) {
    forall i :: 0 <= i < |log| && log[i].kind == k ==> log[i].at + 120 <= at
  }

  predicate Alarms(log: seq<Event>, p: Point, k: Kind, l: Limits) {
    Shows(p, k, l) && Due(log, k, p.at)
  }

  /** The sign is known to be on: some sign-on is later than every sign-off. */
  predicate KnownOn(log: seq<Event>) {
    exists i :: 0 <= i < |log| && log[i].kind == SignOn && forall j :: 0 <= j < |log| && log[j].kind == SignOff ==> log[j].at < log[i].at
  }

  /** What a change of the sign is, as it was known before the batch. */
  function Turn(log: seq<Event>): Kind {
    if KnownOn(log) then SignOff else SignOn
  }

  /** The first point from there on that alarms. */
  predicate FirstFrom(log: seq<Event>, ps: seq<Point>, l: Limits, k: Kind, from: nat, i: int) {
    from <= i < |ps| && Alarms(log, ps[i], k, l) && forall j :: from <= j < i ==> !Alarms(log, ps[j], k, l)
  }

  /** The point that raises the event of a kind: the first that alarms, and for a sign that turns back, the first
      after the one that turned it. */
  ghost predicate RaisedBy(log: seq<Event>, ps: seq<Point>, l: Limits, k: Kind, i: int) {
    if (k.SignOn? || k.SignOff?) && k != Turn(log)
    then exists f: nat :: FirstFrom(log, ps, l, Turn(log), 0, f) && FirstFrom(log, ps, l, k, f + 1, i)
    else FirstFrom(log, ps, l, k, 0, i)
  }

  /** The last time of a kind is the latest of its stored events. */
  lemma {:induction false} LastTimesAreLatest(log: seq<Event>, k: Kind)
    ensures k in LastTimes(log) <==> exists i :: 0 <= i < |log| && log[i].kind == k
    ensures k in LastTimes(log) ==> exists i :: 0 <= i < |log| && log[i].kind == k && log[i].at == LastTimes(log)[k]
    ensures k in LastTimes(log) ==> forall i :: 0 <= i < |log| && log[i].kind == k ==> log[i].at <= LastTimes(log)[k]
  {
    if log != [] {
      var rest := log[..|log| - 1];
      LastTimesAreLatest(rest, k);
      assert forall i :: 0 <= i < |rest| ==> rest[i] == log[i];
    }
  }

  lemma DueByLastTime(log: seq<Event>, k: Kind, at: int)
    ensures Due(log, k, at) <==> (k in LastTimes(log) ==> at - LastTimes(log)[k] >= COOLDOWN)
  {
    LastTimesAreLatest(log, k);
  }

  lemma KnownByLastTimes(log: seq<Event>)
    ensures SignIsOn(LastTimes(log)) <==> KnownOn(log)
  {
    LastTimesAreLatest(log, SignOn);
    LastTimesAreLatest(log, SignOff);
  }

  // ---- one point

  predicate IsSign(k: Kind) {
    k.SignOn? || k.SignOff?
  }

  /** One or more checks fired the kind, or left it as it was. */
  ghost predicate FiresIf(g: Progress, h: Progress, k: Kind, at: int, fires: bool) {
    && g.raised <= h.raised && h.signOn == g.signOn
    && (k in h.fired <==> k in g.fired || fires)
    && (k !in g.fired && k in h.fired ==> Event(k, at, true) in h.raised)
    && (!fires ==> CanFire(h, k, at) == CanFire(g, k, at))
  }

  lemma FiresInTurn(g: Progress, h: Progress, i: Progress, k: Kind, at: int, first: bool, second: bool)
    requires FiresIf(g, h, k, at, first) && FiresIf(h, i, k, at, second)
    ensures FiresIf(g, i, k, at, first || second)
  {
  }

  lemma WhenFires(g: Progress, alarm: bool, j: Kind, at: int, k: Kind)
    ensures FiresIf(g, When(g, alarm, j, at), k, at, k == j && alarm && CanFire(g, k, at))
  {
    var h := When(g, alarm, j, at);
    assert alarm && CanFire(g, j, at) ==> h.raised[|g.raised|] == Event(j, at, true);
  }

  lemma DistanceFires(g: Progress, p: Point, k: Kind)
    ensures FiresIf(g, AfterDistance(g, p), k, p.at,
                    k.Deviation? && p.placed && p.off.Some? && p.off.value > 1000.0 && CanFire(g, k, p.at))
  {
    var off := OffRoute(p);
    if off.Some? {
      WhenFires(g.(maxOff := MaxReal(g.maxOff, off.value)), off.value > DEVIATION, Deviation, p.at, k);
    }
  }

  lemma SignFires(g: Progress, p: Point, k: Kind)
    ensures var h := AfterSign(g, p);
            && g.raised <= h.raised
            && (k in h.fired <==> || k in g.fired
                                  || (IsSign(k) && p.sign == Some(k.SignOn?) && g.signOn != k.SignOn? && CanFire(g, k, p.at)))
            && (k !in g.fired && k in h.fired ==> Event(k, p.at, true) in h.raised && (IsSign(k) ==> h.signOn == k.SignOn?))
            && ((SignOn in g.fired <==> SignOn in h.fired) && (SignOff in g.fired <==> SignOff in h.fired) ==> h.signOn == g.signOn)
  {
    var h := AfterSign(g, p);
    assert |h.raised| > |g.raised| ==> h.raised[|g.raised|] in h.raised;
  }

  /** A point fires a kind that has not fired if it shows it, the last time is long enough ago and, for the sign, it
      was the other way. */
  lemma PointFires(g: Progress, p: Point, l: Limits, k: Kind)
    ensures var h := AfterPoint(g, p, l);
            && g.raised <= h.raised
            && (k in h.fired <==> || k in g.fired
                                  || (Shows(p, k, l) && CanFire(g, k, p.at) && (IsSign(k) ==> g.signOn != k.SignOn?)))
            && (k !in g.fired && k in h.fired ==> Event(k, p.at, true) in h.raised && (IsSign(k) ==> h.signOn == k.SignOn?))
            && ((SignOn in g.fired <==> SignOn in h.fired) && (SignOff in g.fired <==> SignOff in h.fired) ==> h.signOn == g.signOn)
  {
    ChecksFire(g, p, l, k);
    ChecksFire(g, p, l, SignOn);
    ChecksFire(g, p, l, SignOff);
    SignFires(Checked(g, p, l), p, k);
  }

  function Checked(g: Progress, p: Point, l: Limits): Progress {
    var g1 := When(g, p.speed.Some? && p.speed.value > l.speed, Overspeed, p.at);
    AfterDistance(When(g1, p.soc.Some? && p.soc.value < l.soc, LowSoc, p.at), p)
  }

  lemma ChecksFire(g: Progress, p: Point, l: Limits, k: Kind)
    ensures FiresIf(g, Checked(g, p, l), k, p.at, !IsSign(k) && Shows(p, k, l) && CanFire(g, k, p.at))
  {
    var fast, low := p.speed.Some? && p.speed.value > l.speed, p.soc.Some? && p.soc.value < l.soc;
    var g1 := When(g, fast, Overspeed, p.at);
    var g2 := When(g1, low, LowSoc, p.at);
    var first, second := k.Overspeed? && fast && CanFire(g, k, p.at), k.LowSoc? && low && CanFire(g1, k, p.at);
    WhenFires(g, fast, Overspeed, p.at, k);
    WhenFires(g1, low, LowSoc, p.at, k);
    FiresInTurn(g, g1, g2, k, p.at, first, second);
    DistanceFires(g2, p, k);
    FiresInTurn(g, g2, Checked(g, p, l), k, p.at, first || second,
                k.Deviation? && p.placed && p.off.Some? && p.off.value > 1000.0 && CanFire(g2, k, p.at));
  }

  // ---- a batch

  /** So far the kind has fired exactly if some point raises it, and then for that point. */
  ghost predicate Exact(g: Progress, log: seq<Event>, ps: seq<Point>, l: Limits, k: Kind) {
    && (k in g.fired ==> exists i :: RaisedBy(log, ps, l, k, i))
    && (forall i :: RaisedBy(log, ps, l, k, i) ==> k in g.fired && Event(k, ps[i].at, true) in g.raised)
  }

  ghost predicate SignFollows(g: Progress, log: seq<Event>) {
    var turned, back := Turn(log) in g.fired, (if Turn(log).SignOn? then SignOff else SignOn) in g.fired;
    (back ==> turned) && (g.signOn <==> if turned && !back then !KnownOn(log) else KnownOn(log))
  }

  lemma FirstExists(log: seq<Event>, ps: seq<Point>, l: Limits, k: Kind, from: nat, j: int)
    requires from <= j < |ps| && Alarms(log, ps[j], k, l)
    ensures exists i :: FirstFrom(log, ps, l, k, from, i)
    decreases j
  {
    if h :| from <= h < j && Alarms(log, ps[h], k, l) {
      FirstExists(log, ps, l, k, from, h);
    } else {
      assert FirstFrom(log, ps, l, k, from, j);
    }
  }

  lemma FirstOfMore(log: seq<Event>, ps: seq<Point>, p: Point, l: Limits, k: Kind, from: nat, i: int)
    requires from <= |ps|
    ensures FirstFrom(log, ps + [p], l, k, from, i) <==>
              || FirstFrom(log, ps, l, k, from, i)
              || (i == |ps| && Alarms(log, p, k, l) && !exists j :: FirstFrom(log, ps, l, k, from, j))
  {
    var qs := ps + [p];
    assert forall j :: 0 <= j < |ps| ==> qs[j] == ps[j];
    if j :| from <= j < |ps| && Alarms(log, ps[j], k, l) {
      FirstExists(log, ps, l, k, from, j);
    }
  }

  lemma CanFireIffDue(g: Progress, log: seq<Event>, k: Kind, at: int)
    requires Calm(g, LastTimes(log)) && k !in g.fired
    ensures CanFire(g, k, at) <==> Due(log, k, at)
  {
    DueByLastTime(log, k, at);
  }

  function Back(log: seq<Event>): Kind {
    if KnownOn(log) then SignOn else SignOff
  }

  // The kinds that can fire on a point: those due that it shows, a change of the sign in turn.
  lemma FiresIff(g: Progress, log: seq<Event>, p: Point, l: Limits, k: Kind)
    requires Calm(g, LastTimes(log)) && SignFollows(g, log)
    ensures var h := AfterPoint(g, p, l);
            && g.raised <= h.raised
            && (k in h.fired <==> k in g.fired || (Alarms(log, p, k, l) && (k == Back(log) ==> Turn(log) in g.fired)))
            && (k !in g.fired && k in h.fired ==> Event(k, p.at, true) in h.raised)
  {
    PointFires(g, p, l, k);
    if k !in g.fired {
      CanFireIffDue(g, log, k, p.at);
    }
  }

  // What one more point adds: itself, if it fires the kind and no point raised that before.
  ghost predicate RaisedByMore(log: seq<Event>, ps: seq<Point>, p: Point, l: Limits, k: Kind, fires: bool) {
    forall i :: RaisedBy(log, ps + [p], l, k, i) <==>
      RaisedBy(log, ps, l, k, i) || (i == |ps| && fires && !exists j :: RaisedBy(log, ps, l, k, j))
  }

  lemma ExactGrows(g: Progress, h: Progress, log: seq<Event>, ps: seq<Point>, p: Point, l: Limits, k: Kind, fires: bool)
    requires Exact(g, log, ps, l, k) && RaisedByMore(log, ps, p, l, k, fires)
    requires g.raised <= h.raised && (k in h.fired <==> k in g.fired || fires)
    requires k !in g.fired && k in h.fired ==> Event(k, p.at, true) in h.raised
    ensures Exact(h, log, ps + [p], l, k)
  {
    assert forall i :: RaisedBy(log, ps, l, k, i) ==> 0 <= i < |ps| && (ps + [p])[i] == ps[i];
    if i :| RaisedBy(log, ps, l, k, i) {
      assert RaisedBy(log, ps + [p], l, k, i);
    } else if k in h.fired {
      assert RaisedBy(log, ps + [p], l, k, |ps|);
    }
  }

  lemma PlainStep(g: Progress, log: seq<Event>, ps: seq<Point>, p: Point, l: Limits, k: Kind)
    requires Calm(g, LastTimes(log)) && Exact(g, log, ps, l, k) && SignFollows(g, log) && k != Back(log)
    ensures Exact(AfterPoint(g, p, l), log, ps + [p], l, k)
  {
    FiresIff(g, log, p, l, k);
    forall i ensures RaisedBy(log, ps + [p], l, k, i) <==>
        RaisedBy(log, ps, l, k, i) || (i == |ps| && Alarms(log, p, k, l) && !exists j :: RaisedBy(log, ps, l, k, j)) {
      FirstOfMore(log, ps, p, l, k, 0, i);
    }
    ExactGrows(g, AfterPoint(g, p, l), log, ps, p, l, k, Alarms(log, p, k, l));
  }

  lemma BackIsFrom(log: seq<Event>, ps: seq<Point>, l: Limits, f: nat, i: int)
    requires FirstFrom(log, ps, l, Turn(log), 0, f)
    ensures RaisedBy(log, ps, l, Back(log), i) <==> FirstFrom(log, ps, l, Back(log), f + 1, i)
  {
  }

  lemma BackOfMore(log: seq<Event>, ps: seq<Point>, p: Point, l: Limits, f: nat)
    requires FirstFrom(log, ps, l, Turn(log), 0, f)
    ensures RaisedByMore(log, ps, p, l, Back(log), Alarms(log, p, Back(log), l))
  {
    var k, n := Back(log), f + 1;
    FirstOfMore(log, ps, p, l, Turn(log), 0, f);
    forall j ensures RaisedBy(log, ps, l, k, j) <==> FirstFrom(log, ps, l, k, n, j) {
      BackIsFrom(log, ps, l, f, j);
    }
    forall i ensures RaisedBy(log, ps + [p], l, k, i) <==>
        RaisedBy(log, ps, l, k, i) || (i == |ps| && Alarms(log, p, k, l) && !exists j :: RaisedBy(log, ps, l, k, j)) {
      BackIsFrom(log, ps + [p], l, f, i);
      FirstOfMore(log, ps, p, l, k, n, i);
    }
  }

  // As long as the sign has not turned, no point turns it back.
  lemma BackWaits(log: seq<Event>, ps: seq<Point>, p: Point, l: Limits)
    requires !exists f: nat :: FirstFrom(log, ps, l, Turn(log), 0, f)
    ensures RaisedByMore(log, ps, p, l, Back(log), false)
  {
    forall i ensures !RaisedBy(log, ps + [p], l, Back(log), i) {
      if f: nat :| FirstFrom(log, ps + [p], l, Turn(log), 0, f) && FirstFrom(log, ps + [p], l, Back(log), f + 1, i) {
        FirstOfMore(log, ps, p, l, Turn(log), 0, f);
      }
    }
  }

  lemma BackStep(g: Progress, log: seq<Event>, ps: seq<Point>, p: Point, l: Limits)
    requires Calm(g, LastTimes(log)) && SignFollows(g, log)
    requires Exact(g, log, ps, l, Turn(log)) && Exact(g, log, ps, l, Back(log))
    ensures Exact(AfterPoint(g, p, l), log, ps + [p], l, Back(log))
  {
    var h, k := AfterPoint(g, p, l), Back(log);
    FiresIff(g, log, p, l, k);
    if f: nat :| FirstFrom(log, ps, l, Turn(log), 0, f) {
      assert RaisedBy(log, ps, l, Turn(log), f);
      BackOfMore(log, ps, p, l, f);
      ExactGrows(g, h, log, ps, p, l, k, Alarms(log, p, k, l));
    } else {
      assert Turn(log) !in g.fired;
      BackWaits(log, ps, p, l);
      ExactGrows(g, h, log, ps, p, l, k, false);
    }
  }

  lemma SignStep(g: Progress, log: seq<Event>, p: Point, l: Limits)
    requires Calm(g, LastTimes(log)) && SignFollows(g, log)
    ensures SignFollows(AfterPoint(g, p, l), log)
  {
    PointFires(g, p, l, SignOn);
    PointFires(g, p, l, SignOff);
  }

  lemma ExactStep(g: Progress, log: seq<Event>, ps: seq<Point>, p: Point, l: Limits, k: Kind)
    requires Calm(g, LastTimes(log)) && SignFollows(g, log)
    requires Exact(g, log, ps, l, k) && Exact(g, log, ps, l, Turn(log))
    ensures Exact(AfterPoint(g, p, l), log, ps + [p], l, k) && SignFollows(AfterPoint(g, p, l), log)
  {
    SignStep(g, log, p, l);
    if k == Back(log) {
      BackStep(g, log, ps, p, l);
    } else {
      PlainStep(g, log, ps, p, l, k);
    }
  }

  lemma NothingYetIsExact(g: Progress, log: seq<Event>, l: Limits, k: Kind)
    requires g.fired == {} && g.signOn == SignIsOn(LastTimes(log))
    ensures Exact(g, log, [], l, k) && SignFollows(g, log)
  {
    KnownByLastTimes(log);
  }

  lemma {:induction false} PointsAreExact(g: Progress, log: seq<Event>, ps: seq<Point>, l: Limits, k: Kind)
    requires g.fired == {} && g.raised == [] && g.last == LastTimes(log) && g.signOn == SignIsOn(LastTimes(log))
    ensures Exact(AfterPoints(g, ps, l), log, ps, l, k) && SignFollows(AfterPoints(g, ps, l), log)
  {
    if ps == [] {
      NothingYetIsExact(g, log, l, k);
    } else {
      var rest, p := ps[..|ps| - 1], ps[|ps| - 1];
      PointsKeepCalm(g, LastTimes(log), rest, l);
      PointsAreExact(g, log, rest, l, k);
      PointsAreExact(g, log, rest, l, Turn(log));
      ExactStep(AfterPoints(g, rest, l), log, rest, p, l, k);
      assert ps == rest + [p];
    }
  }

  // ---- the theorem

  lemma {:induction false} StoredIffNotLost(raised: seq<Event>, lost: set<Kind>, e: Event)
    ensures e in Stored(raised, lost) <==> e in raised && e.kind !in lost
  {
    if raised != [] {
      StoredIffNotLost(raised[..|raised| - 1], lost, e);
      assert raised == raised[..|raised| - 1] + [raised[|raised| - 1]];
    }
  }

  lemma RaisedIffBy(g: Progress, log: seq<Event>, ps: seq<Point>, l: Limits, e: Event)
    requires Calm(g, LastTimes(log)) && Exact(g, log, ps, l, e.kind)
    ensures e in g.raised <==> e.live && exists i :: RaisedBy(log, ps, l, e.kind, i) && ps[i].at == e.at
  {
    if e in g.raised {
      var i :| RaisedBy(log, ps, l, e.kind, i);
      assert Event(e.kind, ps[i].at, true) in g.raised;
    }
  }

  /** The events that a batch adds are, for each kind that is not lost, one at the point that raises it: the first
      point, by time, that shows the cause two minutes or more after the stored events of the kind. The sign's events
      are its first change from how it was known and the first change back after that. Nothing else is added. */
  lemma BatchAddsExactly(t: Trip, batch: seq<Point>, l: Limits, lost: set<Kind>, e: Event)
    ensures t.log <= Handled(t, batch, l, lost).log
    ensures e in Handled(t, batch, l, lost).log[|t.log|..] <==>
              e.live && e.kind !in lost && exists i :: RaisedBy(t.log, Sorted(batch), l, e.kind, i) && Sorted(batch)[i].at == e.at
  {
    var g := AfterPoints(Start(t), Sorted(batch), l);
    PointsKeepCalm(Start(t), LastTimes(t.log), Sorted(batch), l);
    PointsAreExact(Start(t), t.log, Sorted(batch), l, e.kind);
    RaisedIffBy(g, t.log, Sorted(batch), l, e);
    StoredIffNotLost(g.raised, lost, e);
    assert Handled(t, batch, l, lost).log[|t.log|..] == Stored(g.raised, lost);
  }

  lemma SortedHoldsThePoints(batch: seq<Point>)
    ensures forall p :: p in Sorted(batch) <==> p in batch
    ensures forall i, j :: 0 <= i < j < |batch| ==> Sorted(batch)[i].at <= Sorted(batch)[j].at
  {
    SortOrders(batch, PointTime);
    forall p ensures p in Sorted(batch) <==> p in batch {
      assert p in multiset(Sorted(batch)) <==> p in multiset(batch);
    }
    forall i, j | 0 <= i < j < |batch| ensures Sorted(batch)[i].at <= Sorted(batch)[j].at {
      assert PointTime(Sorted(batch)[i]) <= PointTime(Sorted(batch)[j]);
    }
  }

  // In order of time, the point that raises a kind is no later than any that alarms.
  lemma RaisedByTheFirst(log: seq<Event>, ps: seq<Point>, l: Limits, k: Kind, j: nat) returns (i: nat)
    requires j < |ps| && Alarms(log, ps[j], k, l) && k != Back(log)
    ensures i <= j && RaisedBy(log, ps, l, k, i)
  {
    FirstExists(log, ps, l, k, 0, j);
    i :| FirstFrom(log, ps, l, k, 0, i);
  }

  /** An alarm is given: a batch with a point that shows the cause when it is due stores an event of the kind. */
  lemma DueAlarmIsRaised(t: Trip, batch: seq<Point>, l: Limits, lost: set<Kind>, k: Kind, p: Point)
    requires p in batch && k !in lost && k != Back(t.log)
    requires Shows(p, k, l) && Due(t.log, k, p.at)
    ensures exists e :: e in Handled(t, batch, l, lost).log[|t.log|..] && e.kind == k && e.live && e.at <= p.at
  {
    SortedHoldsThePoints(batch);
    var j :| 0 <= j < |Sorted(batch)| && Sorted(batch)[j] == p;
    var i := RaisedByTheFirst(t.log, Sorted(batch), l, k, j);
    BatchAddsExactly(t, batch, l, lost, Event(k, Sorted(batch)[i].at, true));
  }

  /** And no alarm is given without its cause: each event a batch stores has a point at that instant that shows it,
      two minutes or more after every stored event of the kind. */
  lemma EveryAlarmHasACause(t: Trip, batch: seq<Point>, l: Limits, lost: set<Kind>, e: Event)
    requires e in Handled(t, batch, l, lost).log[|t.log|..]
    ensures exists p :: p in batch && p.at == e.at && Shows(p, e.kind, l) && Due(t.log, e.kind, p.at)
  {
    BatchAddsExactly(t, batch, l, lost, e);
    SortedHoldsThePoints(batch);
    var i :| RaisedBy(t.log, Sorted(batch), l, e.kind, i) && Sorted(batch)[i].at == e.at;
    assert Sorted(batch)[i] in Sorted(batch);
  }

  // ---- the order they are stored in

  ghost predicate AppendsAt(before: seq<Event>, after: seq<Event>, at: int) {
    before <= after && forall i :: |before| <= i < |after| ==> after[i].at == at
  }

  lemma WhenAppendsAt(g: Progress, alarm: bool, k: Kind, at: int)
    ensures AppendsAt(g.raised, When(g, alarm, k, at).raised, at)
  {
  }

  lemma PointAppendsAt(g: Progress, p: Point, l: Limits)
    ensures AppendsAt(g.raised, AfterPoint(g, p, l).raised, p.at)
  {
    var g1 := When(g, p.speed.Some? && p.speed.value > l.speed, Overspeed, p.at);
    var g2 := When(g1, p.soc.Some? && p.soc.value < l.soc, LowSoc, p.at);
    WhenAppendsAt(g, p.speed.Some? && p.speed.value > l.speed, Overspeed, p.at);
    WhenAppendsAt(g1, p.soc.Some? && p.soc.value < l.soc, LowSoc, p.at);
    var off := OffRoute(p);
    if off.Some? {
      WhenAppendsAt(g2.(maxOff := MaxReal(g2.maxOff, off.value)), off.value > DEVIATION, Deviation, p.at);
    }
    SignAppendsAt(AfterDistance(g2, p), p);
  }

  lemma SignAppendsAt(g: Progress, p: Point)
    ensures AppendsAt(g.raised, AfterSign(g, p).raised, p.at)
  {
  }

  ghost predicate InOrder(es: seq<Event>) {
    forall i, j :: 0 <= i < j < |es| ==> es[i].at <= es[j].at
  }

  lemma {:induction false} RaisedInOrder(g: Progress, ps: seq<Point>, l: Limits)
    requires g.raised == [] && Ordered(ps, PointTime)
    ensures InOrder(AfterPoints(g, ps, l).raised)
    ensures forall e :: e in AfterPoints(g, ps, l).raised ==> exists i :: 0 <= i < |ps| && e.at == PointTime(ps[i])
  {
    if ps != [] {
      var rest, p := ps[..|ps| - 1], ps[|ps| - 1];
      RaisedInOrder(g, rest, l);
      PointAppendsAt(AfterPoints(g, rest, l), p, l);
      assert forall i :: 0 <= i < |rest| ==> rest[i] == ps[i];
    }
  }

  lemma {:induction false} StoredInOrder(raised: seq<Event>, lost: set<Kind>)
    requires InOrder(raised)
    ensures InOrder(Stored(raised, lost))
  {
    if raised != [] {
      StoredInOrder(raised[..|raised| - 1], lost);
      forall e | e in Stored(raised[..|raised| - 1], lost) ensures e.at <= raised[|raised| - 1].at {
        StoredIffNotLost(raised[..|raised| - 1], lost, e);
      }
    }
  }

  /** The events of a batch are stored in order of time. */
  lemma BatchAddsInOrder(t: Trip, batch: seq<Point>, l: Limits, lost: set<Kind>, i: nat, j: nat)
    requires |t.log| <= i < j < |Handled(t, batch, l, lost).log|
    ensures Handled(t, batch, l, lost).log[i].at <= Handled(t, batch, l, lost).log[j].at
  {
    SortOrders(batch, PointTime);
    RaisedInOrder(Start(t), Sorted(batch), l);
    StoredInOrder(AfterPoints(Start(t), Sorted(batch), l).raised, lost);
  }
}
