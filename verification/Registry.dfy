/** Which WebSocket connection speaks for a charge pile: connects that replace one another, read loops that end,
    and the sweeper that drops stale piles, in any interleaving. */
module Registry {
  import opened Basics

  // ---- the registry's own operations, each under its mutex

  function Added(byPile: map<Id, Id>, pile: Id, conn: Id): map<Id, Id> {
    byPile[pile := conn]
  }

  function Removed(byPile: map<Id, Id>, pile: Id, conn: Id): map<Id, Id> {
    if pile in byPile && byPile[pile] == conn then byPile - {pile} else byPile
  }

  function Current(byPile: map<Id, Id>, pile: Id): Option<Id> {
    if pile in byPile then Some(byPile[pile]) else None
  }

  class PileRegistry {
    var byPile: map<Id, Id>

    constructor ()
      ensures byPile == map[]
    {
      byPile := map[];
    }

    method Add(pile: Id, conn: Id) returns (old_: Option<Id>)
      modifies this
      ensures byPile == Added(old(byPile), pile, conn)
      ensures old_ == Current(old(byPile), pile)
    {
      old_ := Get(pile);
      byPile := byPile[pile := conn];
    }

    /** Forgets the connection only while it is the pile's current one. */
    method Remove(pile: Id, conn: Id) returns (current: bool)
      modifies this
      ensures byPile == Removed(old(byPile), pile, conn)
      ensures current <==> Current(old(byPile), pile) == Some(conn)
      ensures Current(byPile, pile) != Some(conn)
    {
      if pile !in byPile || byPile[pile] != conn {
        return false;
      }
      byPile := map p | p in byPile && p != pile :: byPile[p];
      return true;
    }

    method Get(pile: Id) returns (conn: Option<Id>)
      ensures conn == Current(byPile, pile)
    {
      conn := if pile in byPile then Some(byPile[pile]) else None;
    }
  }

  // ---- the goroutines around it

  /** Where a connection's own goroutine stands: closing the one it replaced, reading, leaving with what
      remove told it, closed and about to report, or finished. */
  datatype Stage = Displacing(replaced: Id) | Reading | Leaving(current: bool) | Reporting(current: bool) | Gone
  datatype Conn = Conn(pile: Id, closed: bool, stage: Stage)

  /** The sweeper between the steps it takes for one stale pile. */
  datatype Sweeper = Resting | Found(conn: Id) | Dropping(conn: Id)

  /** The registry, the goroutines, and three records of the past: the additions (pile, connection) in order,
      which connection replaced which, and the connections whose end was reported as Disconnected. */
  datatype Server = Server(byPile: map<Id, Id>, conns: map<Id, Conn>, sweeper: Sweeper,
                           added: seq<(Id, Id)>, heirs: map<Id, Id>, disconnected: seq<Id>)

  datatype Action =
    | Connect(pile: Id)       // the upgrade succeeded: add to the registry
    | CloseReplaced           // close the connection that add returned
    | ReadEnds                // the read loop returns: remove
    | CloseOwn                // close in the deferred cleanup
    | Report                  // Disconnected, if remove said this was the current connection
    | SweepFinds(stale: Id)   // get, for a pile without a heartbeat
    | SweepRemoves            // remove
    | SweepCloses             // close

  predicate Enabled(s: Server, c: Id, a: Action) {
    match a
    case Connect(_) => c !in s.conns
    case CloseReplaced => c in s.conns && s.conns[c].stage.Displacing? && s.conns[c].stage.replaced in s.conns
    case ReadEnds => c in s.conns && s.conns[c].stage.Reading?
    case CloseOwn => c in s.conns && s.conns[c].stage.Leaving?
    case Report => c in s.conns && s.conns[c].stage.Reporting?
    case SweepFinds(_) => s.sweeper.Resting?
    case SweepRemoves => s.sweeper.Found? && s.sweeper.conn in s.conns
    case SweepCloses => s.sweeper.Dropping? && s.sweeper.conn in s.conns
  }

  function Closed(s: Server, c: Id): Server
    requires c in s.conns
  {
    s.(conns := s.conns[c := s.conns[c].(closed := true)])
  }

  function At(s: Server, c: Id, stage: Stage): Server
    requires c in s.conns
  {
    s.(conns := s.conns[c := s.conns[c].(stage := stage)])
  }

  function Step(s: Server, c: Id, a: Action): Server {
    if !Enabled(s, c, a) then s
    else match a
      case Connect(pile) =>
        var old_ := Current(s.byPile, pile);
        s.(byPile := Added(s.byPile, pile, c),
           conns := s.conns[c := Conn(pile, false, if old_.Some? then Displacing(old_.value) else Reading)],
           added := s.added + [(pile, c)],
           heirs := if old_.Some? then s.heirs[old_.value := c] else s.heirs)
      case CloseReplaced => At(Closed(s, s.conns[c].stage.replaced), c, Reading)
      case ReadEnds =>
        At(s, c, Leaving(Current(s.byPile, s.conns[c].pile) == Some(c))).(byPile := Removed(s.byPile, s.conns[c].pile, c))
      case CloseOwn => At(Closed(s, c), c, Reporting(s.conns[c].stage.current))
      case Report =>
        At(s, c, Gone).(disconnected := s.disconnected + if s.conns[c].stage.current then [c] else [])
      case SweepFinds(pile) =>
        if pile in s.byPile then s.(sweeper := Found(s.byPile[pile])) else s
      case SweepRemoves =>
        s.(byPile := Removed(s.byPile, s.conns[s.sweeper.conn].pile, s.sweeper.conn), sweeper := Dropping(s.sweeper.conn))
      case SweepCloses => Closed(s, s.sweeper.conn).(sweeper := Resting)
  }

  const EMPTY: Server := Server(map[], map[], Resting, [], map[], [])

  function Run(steps: seq<(Id, Action)>): Server {
    if steps == [] then EMPTY
    else
      var last := steps[|steps| - 1];
      Step(Run(steps[..|steps| - 1]), last.0, last.1)
  }

  // ---- what every interleaving keeps

  predicate IsCurrent(s: Server, c: Id)
    requires c in s.conns
  {
    Current(s.byPile, s.conns[c].pile) == Some(c)
  }

  /** The connection added last for the pile. */
  function LastAdded(added: seq<(Id, Id)>, pile: Id): Option<Id> {
    if added == [] then None
    else if added[|added| - 1].0 == pile then Some(added[|added| - 1].1)
    else LastAdded(added[..|added| - 1], pile)
  }

  ghost predicate WellFormed(s: Server) {
    && (forall p :: p in s.byPile ==> s.byPile[p] in s.conns && s.conns[s.byPile[p]].pile == p)
    && (forall c :: c in s.conns && s.conns[c].stage.Displacing? ==> s.conns[c].stage.replaced in s.conns)
    && (!s.sweeper.Resting? ==> s.sweeper.conn in s.conns)
  }

  /** A registered connection is open, still being read, and the last one added for its pile. */
  ghost predicate RegisteredIsLive(s: Server)
    requires WellFormed(s)
  {
    forall p :: p in s.byPile ==>
      && LastAdded(s.added, p) == Some(s.byPile[p])
      && var c := s.conns[s.byPile[p]];
         !c.closed && (c.stage.Displacing? || c.stage.Reading?)
  }

  /** Whoever is about to close a connection does so after it left the registry. */
  ghost predicate ClosersAreLate(s: Server)
    requires WellFormed(s)
  {
    && (forall c :: c in s.conns && s.conns[c].stage.Displacing? ==> !IsCurrent(s, s.conns[c].stage.replaced))
    && (s.sweeper.Dropping? ==> !IsCurrent(s, s.sweeper.conn))
  }

  /** A connection that left the registry and is still open has somebody about to close it. */
  ghost predicate NoneForgotten(s: Server)
    requires WellFormed(s)
  {
    forall c :: c in s.conns && !s.conns[c].closed && !IsCurrent(s, c) ==> HasCloser(s, c)
  }

  ghost predicate HasCloser(s: Server, c: Id)
    requires c in s.conns
  {
    || s.conns[c].stage.Leaving?
    || (c in s.heirs && s.heirs[c] in s.conns && s.conns[s.heirs[c]].stage == Displacing(c))
    || s.sweeper == Dropping(c)
  }

  /** Disconnected was reported at most once for each connection, and only by its own finished goroutine. */
  ghost predicate ReportsOnce(s: Server) {
    && (forall i, j :: 0 <= i < j < |s.disconnected| ==> s.disconnected[i] != s.disconnected[j])
    && (forall c :: c in s.disconnected ==> c in s.conns && s.conns[c].stage.Gone?)
  }

  ghost predicate Inv(s: Server) {
    WellFormed(s) && RegisteredIsLive(s) && ClosersAreLate(s) && NoneForgotten(s) && ReportsOnce(s)
  }

  lemma ConnectKeepsInv(s: Server, c: Id, pile: Id)
    requires Inv(s) && c !in s.conns
    ensures Inv(Step(s, c, Connect(pile)))
  {
    ConnectIsRegistered(s, c, pile);
    ConnectForgetsNone(s, c, pile);
  }

  lemma ConnectIsRegistered(s: Server, c: Id, pile: Id)
    requires WellFormed(s) && RegisteredIsLive(s) && ClosersAreLate(s) && ReportsOnce(s) && c !in s.conns
    ensures var t := Step(s, c, Connect(pile));
            WellFormed(t) && RegisteredIsLive(t) && ClosersAreLate(t) && ReportsOnce(t)
  {
    assert Step(s, c, Connect(pile)).added[..|s.added|] == s.added;
  }

  // The connection that loses its place is the one the new connection is about to close.
  lemma ConnectForgetsNone(s: Server, c: Id, pile: Id)
    requires WellFormed(s) && NoneForgotten(s) && c !in s.conns
    requires WellFormed(Step(s, c, Connect(pile)))
    ensures NoneForgotten(Step(s, c, Connect(pile)))
  {
    var t := Step(s, c, Connect(pile));
    forall d | d in t.conns && !t.conns[d].closed && !IsCurrent(t, d) ensures HasCloser(t, d) {
      assert d in s.conns;
    }
  }

  lemma CloseReplacedKeepsInv(s: Server, c: Id)
    requires Inv(s) && Enabled(s, c, CloseReplaced)
    ensures Inv(Step(s, c, CloseReplaced))
  {
  }

  lemma ReadEndsKeepsInv(s: Server, c: Id)
    requires Inv(s) && Enabled(s, c, ReadEnds)
    ensures Inv(Step(s, c, ReadEnds))
  {
  }

  lemma CloseOwnKeepsInv(s: Server, c: Id)
    requires Inv(s) && Enabled(s, c, CloseOwn)
    ensures Inv(Step(s, c, CloseOwn))
  {
  }

  lemma ReportKeepsInv(s: Server, c: Id)
    requires Inv(s) && Enabled(s, c, Report)
    ensures Inv(Step(s, c, Report))
  {
  }

  lemma SweepRemovesKeepsInv(s: Server, c: Id)
    requires Inv(s) && Enabled(s, c, SweepRemoves)
    ensures Inv(Step(s, c, SweepRemoves))
  {
  }

  lemma SweepKeepsInv(s: Server, c: Id, a: Action)
    requires Inv(s) && Enabled(s, c, a) && (a.SweepFinds? || a.SweepCloses?)
    ensures Inv(Step(s, c, a))
  {
  }

  lemma StepKeepsInv(s: Server, c: Id, a: Action)
    requires Inv(s)
    ensures Inv(Step(s, c, a))
  {
    if Enabled(s, c, a) {
      match a
      case Connect(pile) => ConnectKeepsInv(s, c, pile);
      case SweepFinds(_) => SweepKeepsInv(s, c, a);
      case SweepRemoves => SweepRemovesKeepsInv(s, c);
      case SweepCloses => SweepKeepsInv(s, c, a);
      case CloseReplaced => CloseReplacedKeepsInv(s, c);
      case ReadEnds => ReadEndsKeepsInv(s, c);
      case CloseOwn => CloseOwnKeepsInv(s, c);
      case Report => ReportKeepsInv(s, c);
    }
  }

  /** Every interleaving keeps the invariant. */
  lemma {:induction false} EveryRunKeepsInv(steps: seq<(Id, Action)>)
    ensures Inv(Run(steps))
  {
    if steps != [] {
      var last := steps[|steps| - 1];
      EveryRunKeepsInv(steps[..|steps| - 1]);
      StepKeepsInv(Run(steps[..|steps| - 1]), last.0, last.1);
    }
  }

  /** A registered connection is open and is the last one added for its pile. */
  lemma RegisteredIsLastAdded(steps: seq<(Id, Action)>, pile: Id)
    requires pile in Run(steps).byPile
    ensures var s := Run(steps);
            var c := s.byPile[pile];
            && c in s.conns && !s.conns[c].closed && s.conns[c].pile == pile && LastAdded(s.added, pile) == Some(c)
  {
    EveryRunKeepsInv(steps);
  }

  // ---- replaced connections

  /** A connection that lost its place does not get it back, does not leave as the current one, and was not reported. */
  ghost predicate IsOut(s: Server, c: Id) {
    && c in s.conns && !IsCurrent(s, c) && c !in s.disconnected
    && (s.conns[c].stage.Leaving? || s.conns[c].stage.Reporting? ==> !s.conns[c].stage.current)
  }

  ghost predicate ReplacedAreOut(s: Server) {
    forall c :: c in s.heirs ==> IsOut(s, c)
  }

  lemma StepKeepsOut(s: Server, who: Id, a: Action, c: Id)
    requires Inv(s) && IsOut(s, c)
    ensures IsOut(Step(s, who, a), c)
  {
  }

  // Whoever is registered when a new connection comes is neither leaving nor reported.
  lemma ReplacingPutsOut(s: Server, who: Id, pile: Id)
    requires Inv(s) && who !in s.conns && pile in s.byPile
    ensures IsOut(Step(s, who, Connect(pile)), s.byPile[pile])
  {
  }

  lemma StepKeepsReplacedOut(s: Server, who: Id, a: Action)
    requires Inv(s) && ReplacedAreOut(s)
    ensures ReplacedAreOut(Step(s, who, a))
  {
    var t := Step(s, who, a);
    forall c | c in t.heirs ensures IsOut(t, c) {
      if c in s.heirs {
        StepKeepsOut(s, who, a, c);
      } else {
        ReplacingPutsOut(s, who, a.pile);
      }
    }
  }

  lemma {:induction false} EveryRunKeepsReplacedOut(steps: seq<(Id, Action)>)
    ensures ReplacedAreOut(Run(steps))
  {
    if steps != [] {
      var last := steps[|steps| - 1];
      EveryRunKeepsReplacedOut(steps[..|steps| - 1]);
      EveryRunKeepsInv(steps[..|steps| - 1]);
      StepKeepsReplacedOut(Run(steps[..|steps| - 1]), last.0, last.1);
    }
  }

  /** In every run, a connection that was replaced is never reported as disconnected. */
  lemma ReplacedIsNeverReported(steps: seq<(Id, Action)>, c: Id)
    requires c in Run(steps).heirs
    ensures c in Run(steps).conns && c !in Run(steps).disconnected && !IsCurrent(Run(steps), c)
  {
    EveryRunKeepsReplacedOut(steps);
    assert IsOut(Run(steps), c);
  }

  /** A step taken for a connection: by its own goroutine, or by the sweeper that has it in hand. */
  predicate ActsFor(s: Server, who: Id, a: Action, c: Id) {
    match a
    case CloseReplaced => who == c
    case ReadEnds => who == c
    case CloseOwn => who == c
    case Report => who == c
    case SweepRemoves => s.sweeper == Found(c)
    case SweepCloses => s.sweeper == Dropping(c)
    case _ => false
  }

  /** In every run, once a connection has been replaced, no step taken for it changes what is registered, reports
      a pile disconnected, or touches a registered connection. */
  lemma ReplacedLeavesSuccessorAlone(steps: seq<(Id, Action)>, c: Id, who: Id, a: Action)
    requires c in Run(steps).heirs && ActsFor(Run(steps), who, a, c)
    ensures var s := Run(steps);
            var t := Step(s, who, a);
            && c in t.heirs && t.byPile == s.byPile && t.disconnected == s.disconnected
            && forall d :: d in s.conns && IsCurrent(s, d) ==> t.conns[d] == s.conns[d]
  {
    EveryRunKeepsInv(steps);
    EveryRunKeepsReplacedOut(steps);
    OutLeavesOthersAlone(Run(steps), c, who, a);
  }

  lemma OutLeavesOthersAlone(s: Server, c: Id, who: Id, a: Action)
    requires Inv(s) && IsOut(s, c) && ActsFor(s, who, a, c)
    ensures var t := Step(s, who, a);
            && t.heirs == s.heirs && t.byPile == s.byPile && t.disconnected == s.disconnected
            && forall d :: d in s.conns && IsCurrent(s, d) ==> d in t.conns && t.conns[d] == s.conns[d]
  {
  }

  /** Disconnected is reported at most once for each connection. */
  lemma DisconnectedOnce(steps: seq<(Id, Action)>, i: nat, j: nat)
    requires i < j < |Run(steps).disconnected|
    ensures Run(steps).disconnected[i] != Run(steps).disconnected[j]
  {
    EveryRunKeepsInv(steps);
  }

  /** When nobody is in the middle of something, the open connections are exactly the registered ones. */
  lemma NoneLeakedAtRest(steps: seq<(Id, Action)>, c: Id)
    requires var s := Run(steps);
             && s.sweeper.Resting? && c in s.conns
             && forall d :: d in s.conns ==> s.conns[d].stage.Reading? || s.conns[d].stage.Gone?
    ensures !Run(steps).conns[c].closed <==> IsCurrent(Run(steps), c)
  {
    EveryRunKeepsInv(steps);
  }

  /** The report itself is made after the mutex is released, so it can come too late: the pile has already
      reconnected, and its live connection is registered, when the old one still reports it disconnected. */
  lemma ReportCanBeStale(pile: Id, c: Id, d: Id)
    requires c != d
    ensures var s := Run([(c, Connect(pile)), (c, ReadEnds), (c, CloseOwn), (d, Connect(pile)), (c, Report)]);
            && s.disconnected == [c] && Current(s.byPile, pile) == Some(d) && d in s.conns && !s.conns[d].closed
  {
    var steps := [(c, Connect(pile)), (c, ReadEnds), (c, CloseOwn), (d, Connect(pile)), (c, Report)];
    assert steps[..4][..3] == steps[..3] && steps[..3][..2] == steps[..2] && steps[..2][..1] == steps[..1] && steps[..1][..0] == steps[..0];
    assert Run(steps[..1]) == Step(EMPTY, c, Connect(pile));
    assert Run(steps[..2]) == Step(Run(steps[..1]), c, ReadEnds);
    assert Run(steps[..3]) == Step(Run(steps[..2]), c, CloseOwn);
    assert Run(steps[..4]) == Step(Run(steps[..3]), d, Connect(pile));
  }

  /** That happens exactly when a connection for the pile is registered at the moment of the report. */
  lemma ReportIsStaleWhenReconnected(s: Server, c: Id)
    requires Inv(s) && Enabled(s, c, Report) && s.conns[c].stage.current
    ensures var t := Step(s, c, Report);
            (exists d :: d in t.conns && d != c && t.conns[d].pile == s.conns[c].pile && !t.conns[d].closed && IsCurrent(t, d))
            <==> s.conns[c].pile in s.byPile
  {
    var t := Step(s, c, Report);
    if s.conns[c].pile in s.byPile {
      var d := s.byPile[s.conns[c].pile];
      assert d in t.conns && d != c && IsCurrent(t, d);
    }
  }

  // ---- what the steps of one connection do when nobody comes between

  /** A new connection speaks for its pile at once; the one it replaced is closed by the next step. */
  lemma ConnectReplaces(s: Server, c: Id, pile: Id)
    requires WellFormed(s) && c !in s.conns
    ensures var t := Step(s, c, Connect(pile));
            && t.byPile == s.byPile[pile := c] && c in t.conns && t.conns[c].pile == pile && !t.conns[c].closed
            && (pile !in s.byPile ==> t.conns[c].stage == Reading && t.heirs == s.heirs)
            && (pile in s.byPile ==>
                  var old_ := s.byPile[pile];
                  var u := Step(t, c, CloseReplaced);
                  t.heirs == s.heirs[old_ := c] && old_ in u.conns && u.conns[old_].closed && u.conns[c].stage == Reading)
  {
  }

  /** A connection whose read loop ends is closed. If it was registered, it is forgotten and its pile is reported
      disconnected; if not, nothing is forgotten and nothing reported. */
  lemma LeavingReports(s: Server, c: Id)
    requires c in s.conns && s.conns[c].stage == Reading
    ensures var t := Step(Step(Step(s, c, ReadEnds), c, CloseOwn), c, Report);
            var pile := s.conns[c].pile;
            && t.conns == s.conns[c := Conn(pile, true, Gone)] && t.sweeper == s.sweeper
            && (pile in s.byPile && s.byPile[pile] == c ==>
                  t.byPile == s.byPile - {pile} && t.disconnected == s.disconnected + [c])
            && (pile !in s.byPile || s.byPile[pile] != c ==> t.byPile == s.byPile && t.disconnected == s.disconnected)
  {
  }

  /** The sweeper forgets and closes the connection it finds for a stale pile, and reports nothing itself; where none
      is registered it does nothing. */
  lemma SweepDrops(s: Server, any: Id, stale: Id)
    requires WellFormed(s) && s.sweeper.Resting?
    ensures var t := Step(Step(Step(s, any, SweepFinds(stale)), any, SweepRemoves), any, SweepCloses);
            && t.disconnected == s.disconnected && t.heirs == s.heirs && t.sweeper.Resting?
            && (stale !in s.byPile ==> t == s)
            && (stale in s.byPile ==>
                  var c := s.byPile[stale];
                  t.byPile == s.byPile - {stale} && t.conns == s.conns[c := s.conns[c].(closed := true)])
  {
  }

  /** A sweep that a reconnect comes between drops only the connection it found. */
  lemma SweepSparesTheSuccessor(s: Server, any: Id, stale: Id, c: Id)
    requires WellFormed(s) && s.sweeper.Resting? && stale in s.byPile && c !in s.conns
    ensures var t := Step(Step(Step(Step(s, any, SweepFinds(stale)), c, Connect(stale)), any, SweepRemoves), any, SweepCloses);
            && t.byPile == s.byPile[stale := c] && c in t.conns && !t.conns[c].closed
            && s.byPile[stale] in t.conns && t.conns[s.byPile[stale]].closed
  {
  }
}
