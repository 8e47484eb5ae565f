/** Charging sessions: opened and closed by the pile, billed through the billing hook, and reviewed by hand when
    that did not go through. Requests are served one at a time; any single write may fail. */
module Charging {
  import opened Basics

  datatype Status = Running | Ended | Settled
  datatype Review = NoReview | Waiting | Approved | Rejected

  /** A session on a connector; bound says a vehicle is known, and costs are in cents. */
  datatype Session = Session(connector: Id, bound: bool, status: Status, review: Review, cost: Option<int>)

  /** A charge posting of the ledger: whose session it pays, and the signed amount. */
  datatype Charge = Charge(session: Id, amount: int)

  datatype Station = Station(sessions: map<Id, Session>, charges: seq<Charge>)

  /** What the settle write did and what the caller was told. */
  datatype Settle = Applied | Lost | AppliedUnseen

  /** How the steps of one finish or one billing turn out. */
  datatype Luck = Luck(closes: bool, deviates: bool, hookWorks: bool, price: nat, settle: Settle, marks: bool)

  function Put(s: Station, id: Id, row: Session): Station {
    s.(sessions := s.sessions[id := row])
  }

  // ---- billing

  /** The earliest charge posting of a session. */
  function FirstCharge(cs: seq<Charge>, id: Id): Option<int> {
    if cs == [] then None
    else
      var earlier := FirstCharge(cs[..|cs| - 1], id);
      if earlier.Some? then earlier
      else if cs[|cs| - 1].session == id then Some(cs[|cs| - 1].amount)
      else None
  }

  function CountOf(cs: seq<Charge>, id: Id): nat {
    if cs == [] then 0 else CountOf(cs[..|cs| - 1], id) + if cs[|cs| - 1].session == id then 1 else 0
  }

  /** PriceAndCharge: a session that was debited before costs what it was debited; nothing is debited for a price of 0. */
  function Cost(cs: seq<Charge>, id: Id, price: nat): int {
    var paid := FirstCharge(cs, id);
    if paid.Some? then -paid.value else price
  }

  function AfterHook(cs: seq<Charge>, id: Id, price: nat): seq<Charge> {
    if FirstCharge(cs, id).Some? || price == 0 then cs else cs + [Charge(id, -(price as int))]
  }

  function SettleRow(x: Session, cost: int, review: Review): Session {
    x.(status := Settled, cost := Some(cost), review := review)
  }

  /** Queue for review, unless the session is settled. */
  function MarkRow(x: Session): Session {
    if x.status.Settled? then x else x.(review := Waiting)
  }

  /** The session's row after billing, and after the failure was noted if there was one. */
  function BilledRow(x: Session, cost: int, review: Review, l: Luck): Session {
    if !l.hookWorks then (if l.marks then MarkRow(x) else x)
    else match l.settle
      case Applied => SettleRow(x, cost, review)
      case Lost => if l.marks then MarkRow(x) else x
      case AppliedUnseen => if l.marks then MarkRow(SettleRow(x, cost, review)) else SettleRow(x, cost, review)
  }

  function Billed(s: Station, id: Id, review: Review, l: Luck): Station
    requires id in s.sessions
  {
    Station(s.sessions[id := BilledRow(s.sessions[id], Cost(s.charges, id, l.price), review, l)],
            if l.hookWorks then AfterHook(s.charges, id, l.price) else s.charges)
  }

  // ---- closing

  predicate NeedsReview(x: Session, l: Luck) {
    !x.bound || l.deviates
  }

  function CloseRow(x: Session, l: Luck): Session {
    x.(status := Ended, review := if NeedsReview(x, l) then Waiting else NoReview)
  }

  /** Close by compare-and-set on running, then bill unless the session goes to review. */
  function Finished(s: Station, id: Id, l: Luck): Station
    requires id in s.sessions
  {
    var x := s.sessions[id];
    if !x.status.Running? || !l.closes then s
    else
      var t := Put(s, id, CloseRow(x, l));
      if NeedsReview(x, l) then t else Billed(t, id, NoReview, l)
  }

  predicate IsActive(s: Station, connector: Id, id: Id) {
    id in s.sessions && s.sessions[id].connector == connector && s.sessions[id].status.Running?
  }

  ghost predicate Busy(s: Station, connector: Id) {
    exists id :: IsActive(s, connector, id)
  }

  ghost function ActiveOn(s: Station, connector: Id): Id
    requires Busy(s, connector)
  {
    var id :| IsActive(s, connector, id); id
  }

  ghost function Cleared(s: Station, connector: Id, l: Luck): Station {
    if Busy(s, connector) then Finished(s, ActiveOn(s, connector), l) else s
  }

  /** A new session: close a stale one on the connector first, insert, and if the unique index still
      refuses, close and insert once more. */
  ghost function Started(s: Station, id: Id, connector: Id, bound: bool, first: Luck, again: Luck): Station {
    var row := Session(connector, bound, Running, if bound then NoReview else Waiting, None);
    var t := Cleared(s, connector, first);
    var u := if Busy(t, connector) then Cleared(t, connector, again) else t;
    if Busy(u, connector) then u else Put(u, id, row)
  }

  // ---- review

  datatype Reply = Done | NotFound | Conflict

  function ReviewReply(s: Station, id: Id): Reply {
    if id !in s.sessions then NotFound
    else if !s.sessions[id].review.Waiting? || s.sessions[id].status.Running? then Conflict
    else Done
  }

  function RejectRow(x: Session): Session {
    x.(status := Ended, review := Rejected, cost := None)
  }

  datatype Request =
    | Start(newId: Id, connector: Id, bound: bool, first: Luck, again: Luck)
    | Stop(id: Id, luck: Luck)
    | Approve(id: Id, attributed: bool, bind: bool, luck: Luck)   // attributed: a user or a vehicle is known after the corrections
    | Reject(id: Id)

  ghost function Serve(s: Station, q: Request): Station {
    match q
    case Start(id, connector, bound, first, again) =>
      if id in s.sessions then s else Started(s, id, connector, bound, first, again)
    case Stop(id, l) => if id in s.sessions then Finished(s, id, l) else s
    case Approve(id, attributed, bind, l) =>
      if !ReviewReply(s, id).Done? || !attributed then s
      else Billed(Put(s, id, s.sessions[id].(bound := s.sessions[id].bound || bind)), id, Approved, l)
    case Reject(id) => if ReviewReply(s, id).Done? then Put(s, id, RejectRow(s.sessions[id])) else s
  }

  ghost function Run(requests: seq<Request>): Station {
    if requests == [] then Station(map[], [])
    else Serve(Run(requests[..|requests| - 1]), requests[|requests| - 1])
  }

  // ---- what every run keeps

  ghost predicate OnePerConnector(s: Station) {
    forall i, j, c :: IsActive(s, c, i) && IsActive(s, c, j) ==> i == j
  }

  /** A session has at most one charge posting, and it is a debit. */
  ghost predicate Tallied(cs: seq<Charge>, id: Id) {
    && CountOf(cs, id) <= 1
    && (FirstCharge(cs, id).Some? <==> CountOf(cs, id) == 1)
    && (FirstCharge(cs, id).Some? ==> FirstCharge(cs, id).value < 0)
  }

  /** The postings are what a session of that cost leaves: one of minus the cost, or none at no cost. */
  ghost predicate Pays(cs: seq<Charge>, id: Id, cost: int) {
    && cost >= 0
    && CountOf(cs, id) == (if cost == 0 then 0 else 1)
    && (cost != 0 ==> FirstCharge(cs, id) == Some(-cost))
  }

  /** A session and its charge postings agree. */
  ghost predicate Agrees(x: Session, cs: seq<Charge>, id: Id) {
    && Tallied(cs, id)
    && (x.status.Running? ==> CountOf(cs, id) == 0)
    && (x.status.Settled? <==> x.cost.Some?)
    && (x.status.Settled? ==> !x.review.Waiting? && !x.review.Rejected? && Pays(cs, id, x.cost.value))
  }

  ghost predicate Inv(s: Station) {
    && OnePerConnector(s)
    && (forall id :: id in s.sessions ==> Agrees(s.sessions[id], s.charges, id))
    && (forall id :: id !in s.sessions ==> CountOf(s.charges, id) == 0 && FirstCharge(s.charges, id).None?)
  }

  lemma ChargeAppends(cs: seq<Charge>, c: Charge, id: Id)
    ensures CountOf(cs + [c], id) == CountOf(cs, id) + if c.session == id then 1 else 0
    ensures FirstCharge(cs + [c], id) ==
      if FirstCharge(cs, id).Some? then FirstCharge(cs, id) else if c.session == id then Some(c.amount) else None
  {
    assert (cs + [c])[..|cs|] == cs;
  }

  lemma HookAgrees(cs: seq<Charge>, id: Id, price: nat)
    requires Tallied(cs, id)
    ensures Tallied(AfterHook(cs, id, price), id) && Pays(AfterHook(cs, id, price), id, Cost(cs, id, price))
  {
    if FirstCharge(cs, id).None? && price != 0 {
      ChargeAppends(cs, Charge(id, -(price as int)), id);
    }
  }

  lemma HookLeavesOthers(cs: seq<Charge>, id: Id, price: nat, other: Id)
    requires other != id
    ensures CountOf(AfterHook(cs, id, price), other) == CountOf(cs, other)
    ensures FirstCharge(AfterHook(cs, id, price), other) == FirstCharge(cs, other)
  {
    if FirstCharge(cs, id).None? && price != 0 {
      ChargeAppends(cs, Charge(id, -(price as int)), other);
    }
  }

  // Billing an ended session leaves it ended or settles it for exactly what was debited.
  lemma BilledAgrees(x: Session, ds: seq<Charge>, id: Id, cost: int, review: Review, l: Luck)
    requires Tallied(ds, id) && x.status.Ended? && x.cost.None? && (review.NoReview? || review.Approved?)
    requires l.hookWorks ==> Pays(ds, id, cost)
    ensures var y := BilledRow(x, cost, review, l); !y.status.Running? && y.connector == x.connector && Agrees(y, ds, id)
  {
  }

  lemma PutKeepsInv(s: Station, id: Id, row: Session)
    requires Inv(s) && Agrees(row, s.charges, id)
    requires row.status.Running? ==> forall i :: IsActive(s, row.connector, i) ==> i == id
    ensures Inv(Put(s, id, row))
  {
    var t := Put(s, id, row);
    forall i, j, c | IsActive(t, c, i) && IsActive(t, c, j) ensures i == j {
      assert i != id ==> IsActive(s, c, i);
      assert j != id ==> IsActive(s, c, j);
    }
  }

  ghost predicate SameCharges(cs: seq<Charge>, ds: seq<Charge>, id: Id) {
    CountOf(ds, id) == CountOf(cs, id) && FirstCharge(ds, id) == FirstCharge(cs, id)
  }

  // One session that no longer runs is rewritten together with its own postings.
  lemma RewriteKeepsInv(s: Station, id: Id, row: Session, ds: seq<Charge>)
    requires Inv(s) && Agrees(row, ds, id) && !row.status.Running?
    requires forall i :: i != id ==> SameCharges(s.charges, ds, i)
    ensures Inv(Station(s.sessions[id := row], ds))
  {
    var t := Station(s.sessions[id := row], ds);
    forall i, j, c | IsActive(t, c, i) && IsActive(t, c, j) ensures i == j {
      assert IsActive(s, c, i) && IsActive(s, c, j);
    }
    forall i | i in s.sessions && i != id ensures Agrees(s.sessions[i], ds, i) {
      assert SameCharges(s.charges, ds, i);
    }
    forall i | i !in s.sessions && i != id ensures CountOf(ds, i) == 0 && FirstCharge(ds, i).None? {
      assert SameCharges(s.charges, ds, i);
    }
  }

  lemma BilledKeepsInv(s: Station, id: Id, review: Review, l: Luck)
    requires Inv(s) && id in s.sessions && s.sessions[id].status.Ended? && (review.NoReview? || review.Approved?)
    ensures Inv(Billed(s, id, review, l))
  {
    var x, cs := s.sessions[id], s.charges;
    var ds := if l.hookWorks then AfterHook(cs, id, l.price) else cs;
    var row := BilledRow(x, Cost(cs, id, l.price), review, l);
    HookAgrees(cs, id, l.price);
    BilledAgrees(x, ds, id, Cost(cs, id, l.price), review, l);
    forall i: Id | i != id ensures SameCharges(cs, ds, i) {
      HookLeavesOthers(cs, id, l.price, i);
    }
    RewriteKeepsInv(s, id, row, ds);
  }

  lemma FinishedKeepsInv(s: Station, id: Id, l: Luck)
    requires Inv(s) && id in s.sessions
    ensures Inv(Finished(s, id, l)) && Finished(s, id, l).sessions.Keys == s.sessions.Keys
  {
    var x := s.sessions[id];
    if x.status.Running? && l.closes {
      var row := CloseRow(x, l);
      PutKeepsInv(s, id, row);
      if !NeedsReview(x, l) {
        BilledKeepsInv(Put(s, id, row), id, NoReview, l);
      }
    }
  }

  lemma StartedKeepsInv(s: Station, id: Id, connector: Id, bound: bool, first: Luck, again: Luck)
    requires Inv(s) && id !in s.sessions
    ensures Inv(Started(s, id, connector, bound, first, again))
  {
    var row := Session(connector, bound, Running, if bound then NoReview else Waiting, None);
    ClearedKeepsInv(s, connector, first);
    var t := Cleared(s, connector, first);
    ClearedKeepsInv(t, connector, again);
    var u := if Busy(t, connector) then Cleared(t, connector, again) else t;
    if !Busy(u, connector) {
      PutKeepsInv(u, id, row);
    }
  }

  lemma ClearedKeepsInv(s: Station, connector: Id, l: Luck)
    requires Inv(s)
    ensures Inv(Cleared(s, connector, l)) && Cleared(s, connector, l).sessions.Keys == s.sessions.Keys
  {
    if Busy(s, connector) {
      FinishedKeepsInv(s, ActiveOn(s, connector), l);
    }
  }

  lemma ServeKeepsInv(s: Station, q: Request)
    requires Inv(s)
    ensures Inv(Serve(s, q))
  {
    match q
    case Start(id, connector, bound, first, again) =>
      if id !in s.sessions {
        StartedKeepsInv(s, id, connector, bound, first, again);
      }
    case Stop(id, l) =>
      if id in s.sessions {
        FinishedKeepsInv(s, id, l);
      }
    case Approve(id, attributed, bind, l) =>
      if ReviewReply(s, id).Done? && attributed {
        var x := s.sessions[id].(bound := s.sessions[id].bound || bind);
        PutKeepsInv(s, id, x);
        BilledKeepsInv(Put(s, id, x), id, Approved, l);
      }
    case Reject(id) =>
      if ReviewReply(s, id).Done? {
        PutKeepsInv(s, id, RejectRow(s.sessions[id]));
      }
  }

  lemma {:induction false} EveryRunKeepsInv(requests: seq<Request>)
    ensures Inv(Run(requests))
  {
    if requests != [] {
      EveryRunKeepsInv(requests[..|requests| - 1]);
      ServeKeepsInv(Run(requests[..|requests| - 1]), requests[|requests| - 1]);
    }
  }

  // ---- the theorems

  /** A connector runs at most one session. */
  lemma OneSessionPerConnector(requests: seq<Request>, connector: Id, i: Id, j: Id)
    requires IsActive(Run(requests), connector, i) && IsActive(Run(requests), connector, j)
    ensures i == j
  {
    EveryRunKeepsInv(requests);
  }

  ghost predicate DebitedOnce(s: Station, id: Id)
    requires id in s.sessions
  {
    var x := s.sessions[id];
    && CountOf(s.charges, id) <= 1
    && (x.status.Running? ==> CountOf(s.charges, id) == 0)
    && (x.status.Settled? ==> x.cost.Some? && Pays(s.charges, id, x.cost.value))
  }

  /** However often billing failed and was retried, a session is debited at most once; a settled one exactly once,
      by minus its cost, or not at all when it cost nothing. */
  lemma SessionIsDebitedOnce(requests: seq<Request>, id: Id)
    requires id in Run(requests).sessions
    ensures DebitedOnce(Run(requests), id)
  {
    EveryRunKeepsInv(requests);
    AgreeingIsDebitedOnce(Run(requests), id);
  }

  lemma AgreeingIsDebitedOnce(s: Station, id: Id)
    requires Inv(s) && id in s.sessions
    ensures DebitedOnce(s, id)
  {
    assert Agrees(s.sessions[id], s.charges, id);
  }

  /** A settled session is never written again and never reviewed again. */
  lemma SettledIsFinal(s: Station, q: Request, id: Id)
    requires Inv(s) && id in s.sessions && s.sessions[id].status.Settled?
    ensures id in Serve(s, q).sessions && Serve(s, q).sessions[id] == s.sessions[id]
    ensures ReviewReply(s, id) == Conflict
  {
    assert Agrees(s.sessions[id], s.charges, id);
    if q.Start? && q.newId !in s.sessions {
      ClearedLeaves(s, q.connector, q.first, id);
      ClearedLeaves(Cleared(s, q.connector, q.first), q.connector, q.again, id);
    }
  }

  lemma ClearedLeaves(s: Station, connector: Id, l: Luck, id: Id)
    requires id in s.sessions && !s.sessions[id].status.Running?
    ensures id in Cleared(s, connector, l).sessions && Cleared(s, connector, l).sessions[id] == s.sessions[id]
  {
  }

  function Rank(s: Status): nat {
    match s case Running => 0 case Ended => 1 case Settled => 2
  }

  /** A session's status only moves forward: running, ended, settled. */
  lemma StatusOnlyMovesForward(s: Station, q: Request, id: Id)
    requires Inv(s) && id in s.sessions
    ensures id in Serve(s, q).sessions && Rank(s.sessions[id].status) <= Rank(Serve(s, q).sessions[id].status)
  {
    if s.sessions[id].status.Settled? {
      SettledIsFinal(s, q, id);
    } else if q.Start? && q.newId !in s.sessions {
      ClearedMovesForward(s, q.connector, q.first, id);
      ClearedMovesForward(Cleared(s, q.connector, q.first), q.connector, q.again, id);
    }
  }

  lemma ClearedMovesForward(s: Station, connector: Id, l: Luck, id: Id)
    requires id in s.sessions
    ensures id in Cleared(s, connector, l).sessions
    ensures Rank(s.sessions[id].status) <= Rank(Cleared(s, connector, l).sessions[id].status)
  {
  }

  // ---- write by write

  /** The values a session's row takes while it is billed, one for each write. */
  function BillingWrites(x: Session, cost: int, review: Review, l: Luck): seq<Session> {
    var settled := SettleRow(x, cost, review);
    if !l.hookWorks || l.settle.Lost? then if l.marks then [MarkRow(x)] else []
    else if l.settle.AppliedUnseen? && l.marks then [settled, MarkRow(settled)]
    else [settled]
  }

  function FinishWrites(s: Station, id: Id, l: Luck): seq<Session>
    requires id in s.sessions
  {
    var x := s.sessions[id];
    if !x.status.Running? || !l.closes then []
    else if NeedsReview(x, l) then [CloseRow(x, l)]
    else [CloseRow(x, l)] + BillingWrites(CloseRow(x, l), Cost(s.charges, id, l.price), NoReview, l)
  }

  ghost function ClearWrites(s: Station, connector: Id, l: Luck, id: Id): seq<Session>
    requires id in s.sessions
  {
    if Busy(s, connector) && ActiveOn(s, connector) == id then FinishWrites(s, id, l) else []
  }

  /** The values an existing session's row takes during one request. */
  ghost function Writes(s: Station, q: Request, id: Id): seq<Session>
    requires id in s.sessions
  {
    match q
    case Start(new_, connector, _, first, again) =>
      if new_ in s.sessions then []
      else
        var t := Cleared(s, connector, first);
        ClearWrites(s, connector, first, id)
        + if id in t.sessions && Busy(t, connector) then ClearWrites(t, connector, again, id) else []
    case Stop(i, l) => if i == id then FinishWrites(s, id, l) else []
    case Approve(i, attributed, bind, l) =>
      if i != id || !ReviewReply(s, id).Done? || !attributed then []
      else
        var x := s.sessions[id].(bound := s.sessions[id].bound || bind);
        [x] + BillingWrites(x, Cost(s.charges, id, l.price), Approved, l)
    case Reject(i) => if i == id && ReviewReply(s, id).Done? then [RejectRow(s.sessions[id])] else []
  }

  predicate OneStep(a: Status, b: Status) {
    a == b || (a.Running? && b.Ended?) || (a.Ended? && b.Settled?)
  }

  /** From the row before, write by write, to the row after: at most one step of the status at a time. */
  predicate Leads(x: Session, writes: seq<Session>, y: Session)
    decreases |writes|
  {
    if writes == [] then x == y
    else OneStep(x.status, writes[0].status) && Leads(writes[0], writes[1..], y)
  }

  lemma {:induction false} LeadsOn(x: Session, a: seq<Session>, y: Session, b: seq<Session>, z: Session)
    requires Leads(x, a, y) && Leads(y, b, z)
    ensures Leads(x, a + b, z)
    decreases |a|
  {
    if a == [] {
      assert a + b == b;
    } else {
      assert (a + b)[1..] == a[1..] + b;
      LeadsOn(a[0], a[1..], y, b, z);
    }
  }

  lemma BillingLeads(x: Session, cost: int, review: Review, l: Luck)
    requires x.status.Ended?
    ensures Leads(x, BillingWrites(x, cost, review, l), BilledRow(x, cost, review, l))
  {
  }

  lemma FinishLeads(s: Station, id: Id, l: Luck)
    requires id in s.sessions
    ensures id in Finished(s, id, l).sessions
    ensures Leads(s.sessions[id], FinishWrites(s, id, l), Finished(s, id, l).sessions[id])
  {
    var x := s.sessions[id];
    if x.status.Running? && l.closes && !NeedsReview(x, l) {
      var cost := Cost(s.charges, id, l.price);
      BillingLeads(CloseRow(x, l), cost, NoReview, l);
      assert Leads(x, [CloseRow(x, l)], CloseRow(x, l));
      LeadsOn(x, [CloseRow(x, l)], CloseRow(x, l), BillingWrites(CloseRow(x, l), cost, NoReview, l),
              BilledRow(CloseRow(x, l), cost, NoReview, l));
    }
  }

  lemma ClearLeads(s: Station, connector: Id, l: Luck, id: Id)
    requires id in s.sessions
    ensures id in Cleared(s, connector, l).sessions
    ensures Leads(s.sessions[id], ClearWrites(s, connector, l, id), Cleared(s, connector, l).sessions[id])
  {
    if Busy(s, connector) && ActiveOn(s, connector) == id {
      FinishLeads(s, id, l);
    }
  }

  /** No write skips a step: whatever a request does to a session, its row goes from charging to ended and from
      ended to settled one write at a time, and ends as the request leaves it. */
  lemma NoWriteSkipsEnded(s: Station, q: Request, id: Id)
    requires Inv(s) && id in s.sessions
    ensures id in Serve(s, q).sessions && Leads(s.sessions[id], Writes(s, q, id), Serve(s, q).sessions[id])
  {
    assert Agrees(s.sessions[id], s.charges, id);
    match q
    case Start(new_, connector, _, first, again) =>
      if new_ !in s.sessions {
        var t := Cleared(s, connector, first);
        ClearLeads(s, connector, first, id);
        ClearLeads(t, connector, again, id);
        var more := if Busy(t, connector) then ClearWrites(t, connector, again, id) else [];
        LeadsOn(s.sessions[id], ClearWrites(s, connector, first, id), t.sessions[id], more, Serve(s, q).sessions[id]);
      }
    case Stop(i, l) =>
      if i == id {
        FinishLeads(s, id, l);
      }
    case Approve(i, attributed, bind, l) =>
      if i == id && ReviewReply(s, id).Done? && attributed {
        BillingLeads(s.sessions[id].(bound := s.sessions[id].bound || bind), Cost(s.charges, id, l.price), Approved, l);
        assert Writes(s, q, id)[1..] == BillingWrites(Writes(s, q, id)[0], Cost(s.charges, id, l.price), Approved, l);
      }
    case Reject(_) =>
  }

  /** A retried review settles for what the first attempt debited, whatever the price is by now. */
  lemma RetrySettlesForTheFirstDebit(s: Station, id: Id, bind: bool, l: Luck)
    requires Inv(s) && ReviewReply(s, id).Done? && FirstCharge(s.charges, id).Some?
    requires l.hookWorks && !l.settle.Lost?
    ensures var t := Serve(s, Approve(id, true, bind, l));
            && t.charges == s.charges
            && t.sessions[id].status.Settled? && t.sessions[id].cost.Some?
            && -t.sessions[id].cost.value == FirstCharge(s.charges, id).value
  {
    assert Agrees(s.sessions[id], s.charges, id);
  }

  /** Rejecting gives no money back: afterwards the rejected session has a debit exactly when one was there before. */
  lemma RejectKeepsTheDebit(s: Station, id: Id)
    requires Inv(s) && ReviewReply(s, id).Done?
    ensures var t := Serve(s, Reject(id));
            && t.sessions[id].review.Rejected? && t.sessions[id].cost.None?
            && (CountOf(t.charges, id) == 1 <==> FirstCharge(s.charges, id).Some?)
  {
    assert Agrees(s.sessions[id], s.charges, id);
  }

  /** So a session can be rejected, have no cost, and still be paid for: its settle write was lost before. */
  lemma RejectedCanBePaid(id: Id, connector: Id, price: nat)
    requires price != 0
    ensures var unlucky := Luck(true, false, true, price, Lost, true);
            var s := Run([Start(id, connector, true, unlucky, unlucky), Stop(id, unlucky), Reject(id)]);
            && id in s.sessions && s.sessions[id] == Session(connector, true, Ended, Rejected, None)
            && s.charges == [Charge(id, -(price as int))]
  {
    var unlucky := Luck(true, false, true, price, Lost, true);
    var requests := [Start(id, connector, true, unlucky, unlucky), Stop(id, unlucky), Reject(id)];
    assert requests[..2][..1] == requests[..1] && requests[..1][..0] == requests[..0];
    var empty := Station(map[], []);
    assert Run(requests[..0]) == empty;
    assert !Busy(empty, connector);
    var running := Put(empty, id, Session(connector, true, Running, NoReview, None));
    assert Run(requests[..1]) == running;
    assert Run(requests[..2]) == Finished(running, id, unlucky);
  }

  predicate Stranded(x: Session) {
    x.status.Ended? && x.review.NoReview?
  }

  /** A session that ended and is neither settled nor queued for review is in nobody's list: no request changes it. */
  lemma UnmarkedIsStuck(s: Station, q: Request, id: Id)
    requires id in s.sessions && Stranded(s.sessions[id])
    ensures id in Serve(s, q).sessions && Serve(s, q).sessions[id] == s.sessions[id]
  {
    if q.Start? && q.newId !in s.sessions {
      ClearedLeaves(s, q.connector, q.first, id);
      ClearedLeaves(Cleared(s, q.connector, q.first), q.connector, q.again, id);
    }
  }

  /** Finishing a running session strands it exactly when it is closed and to be billed at once, the billing fails
      without having settled, and the note of the failure is lost as well. */
  lemma FinishStrandsIff(s: Station, id: Id, l: Luck)
    requires id in s.sessions && s.sessions[id].status.Running?
    ensures Stranded(Finished(s, id, l).sessions[id]) <==>
              l.closes && !NeedsReview(s.sessions[id], l) && (!l.hookWorks || l.settle.Lost?) && !l.marks
  {
  }

  /** Only finishing a running session strands one: no review does. */
  lemma OnlyFinishingStrands(s: Station, q: Request, id: Id)
    requires Inv(s) && id in s.sessions && !Stranded(s.sessions[id]) && Stranded(Serve(s, q).sessions[id])
    ensures s.sessions[id].status.Running? && (q.Start? || (q.Stop? && q.id == id))
  {
    if !s.sessions[id].status.Running? && q.Start? && q.newId !in s.sessions {
      ClearedLeaves(s, q.connector, q.first, id);
      ClearedLeaves(Cleared(s, q.connector, q.first), q.connector, q.again, id);
    }
  }

  /** Such a run exists: the hook fails at the stop and nothing notes it. */
  lemma SessionCanBeStranded(id: Id, connector: Id, price: nat)
    ensures var unlucky := Luck(true, false, false, price, Applied, false);
            var s := Run([Start(id, connector, true, unlucky, unlucky), Stop(id, unlucky)]);
            id in s.sessions && s.sessions[id] == Session(connector, true, Ended, NoReview, None) && Stranded(s.sessions[id])
  {
    var unlucky := Luck(true, false, false, price, Applied, false);
    var requests := [Start(id, connector, true, unlucky, unlucky), Stop(id, unlucky)];
    assert requests[..1][..0] == requests[..0];
    var empty := Station(map[], []);
    assert Run(requests[..0]) == empty && !Busy(empty, connector);
    var running := Put(empty, id, Session(connector, true, Running, NoReview, None));
    assert Run(requests[..1]) == running;
    assert Run(requests) == Finished(running, id, unlucky);
  }

  // ---- the same requests, statement by statement

  class ChargingDesk {
    var sessions: map<Id, Session>
    var charges: seq<Charge>

    constructor ()
      ensures State() == Station(map[], [])
    {
      sessions, charges := map[], [];
    }

    function State(): Station
      reads this
    {
      Station(sessions, charges)
    }

    /** The hook looks for an earlier debit of the session before it makes one. */
    method PriceAndCharge(id: Id, price: nat) returns (cost: int)
      modifies this`charges
      ensures charges == AfterHook(old(charges), id, price) && cost == Cost(old(charges), id, price)
    {
      var paid := FirstCharge(charges, id);
      if paid.Some? {
        return -paid.value;
      }
      if price != 0 {
        charges := charges + [Charge(id, -(price as int))];
      }
      return price;
    }

    method MarkPending(id: Id)
      requires id in sessions
      modifies this`sessions
      ensures sessions == old(sessions)[id := MarkRow(old(sessions)[id])]
    {
      var x := sessions[id];
      if x.status == Ended || x.status == Running {
        x := x.(review := Waiting);
      }
      sessions := sessions[id := x];
    }

    /** Debit, then settle, then, if either went wrong as far as it can see, queue for review. */
    method Bill(id: Id, review: Review, l: Luck)
      requires id in sessions
      modifies this
      ensures State() == Billed(old(State()), id, review, l)
    {
      var failed := !l.hookWorks;
      if l.hookWorks {
        var cost := PriceAndCharge(id, l.price);
        if l.settle != Lost {
          sessions := sessions[id := sessions[id].(status := Settled, cost := Some(cost), review := review)];
        }
        failed := l.settle != Applied;
      }
      if failed && l.marks {
        MarkPending(id);
      }
      assert sessions == Billed(old(State()), id, review, l).sessions;
    }

    method Finish(id: Id, l: Luck)
      requires id in sessions
      modifies this
      ensures State() == Finished(old(State()), id, l)
    {
      var x := sessions[id];
      if x.status != Running || !l.closes {
        return;
      }
      var needs := !x.bound || l.deviates;
      sessions := sessions[id := x.(status := Ended, review := if needs then Waiting else NoReview)];
      if !needs {
        Bill(id, NoReview, l);
      }
    }

    method ActiveOf(connector: Id) returns (active: Option<Id>)
      requires OnePerConnector(State())
      ensures active == if Busy(State(), connector) then Some(ActiveOn(State(), connector)) else None
    {
      if i :| i in sessions && sessions[i].connector == connector && sessions[i].status == Running {
        assert IsActive(State(), connector, i);
        return Some(i);
      }
      return None;
    }

    method CloseStale(connector: Id, l: Luck)
      requires Inv(State())
      modifies this
      ensures State() == Cleared(old(State()), connector, l) && Inv(State()) && sessions.Keys == old(sessions).Keys
    {
      ClearedKeepsInv(State(), connector, l);
      var active := ActiveOf(connector);
      if active.Some? {
        Finish(active.value, l);
      }
    }

    /** False when the connector could not be freed. */
    method StartTransaction(id: Id, connector: Id, bound: bool, first: Luck, again: Luck) returns (started: bool)
      requires Inv(State()) && id !in sessions
      modifies this
      ensures State() == Serve(old(State()), Start(id, connector, bound, first, again)) && Inv(State())
      ensures started <==> id in sessions
    {
      ServeKeepsInv(State(), Start(id, connector, bound, first, again));
      CloseStale(connector, first);
      var violates := ActiveOf(connector);
      if violates.Some? {
        CloseStale(connector, again);
        violates := ActiveOf(connector);
      }
      if violates.None? {
        sessions := sessions[id := Session(connector, bound, Running, if bound then NoReview else Waiting, None)];
      }
      return violates.None?;
    }

    method StopTransaction(id: Id, l: Luck)
      requires Inv(State())
      modifies this
      ensures State() == Serve(old(State()), Stop(id, l)) && Inv(State())
    {
      ServeKeepsInv(State(), Stop(id, l));
      if id in sessions && sessions[id].status == Running {
        Finish(id, l);
      }
    }

    /** Approves with the corrections applied first, or rejects. */
    method ReviewSession(id: Id, reject: bool, attributed: bool, bind: bool, l: Luck) returns (reply: Reply)
      requires Inv(State())
      modifies this
      ensures State() == Serve(old(State()), if reject then Request.Reject(id) else Request.Approve(id, attributed, bind, l))
      ensures Inv(State())
      ensures reply != Done ==> State() == old(State())
    {
      ServeKeepsInv(State(), if reject then Request.Reject(id) else Request.Approve(id, attributed, bind, l));
      if id !in sessions {
        return NotFound;
      }
      var x := sessions[id];
      if x.review != Waiting || x.status == Running {
        return Conflict;
      }
      if reject {
        sessions := sessions[id := x.(status := Ended, review := Rejected, cost := None)];
        return Done;
      }
      if !attributed {
        return Conflict;
      }
      sessions := sessions[id := x.(bound := x.bound || bind)];
      Bill(id, Approved, l);
      return Done;
    }
  }
}
