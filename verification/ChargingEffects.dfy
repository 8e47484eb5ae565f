/** What each request does to a charging station, said on its sessions and postings. */
module ChargingEffects {
  import opened Basics
  import opened Charging

  predicate IsPaid(cs: seq<Charge>, id: Id) {
    exists k :: 0 <= k < |cs| && cs[k].session == id
  }

  /** The earlier debit that billing finds is the first posting of the session. */
  lemma {:induction false} FirstChargeIsFirst(cs: seq<Charge>, id: Id)
    ensures FirstCharge(cs, id).Some? <==> IsPaid(cs, id)
    ensures forall k :: 0 <= k < |cs| && cs[k].session == id && (forall j :: 0 <= j < k ==> cs[j].session != id) ==>
              FirstCharge(cs, id) == Some(cs[k].amount)
  {
    if cs != [] {
      var rest, last := cs[..|cs| - 1], cs[|cs| - 1];
      FirstChargeIsFirst(rest, id);
      assert forall k :: 0 <= k < |rest| ==> rest[k] == cs[k];
    }
  }

  lemma {:induction false} CountIsOfPostings(cs: seq<Charge>, id: Id)
    ensures CountOf(cs, id) == 0 <==> !IsPaid(cs, id)
    ensures CountOf(cs, id) <= 1 <==> forall i, j :: 0 <= i < j < |cs| ==> !(cs[i].session == id && cs[j].session == id)
  {
    if cs != [] {
      var rest, last := cs[..|cs| - 1], cs[|cs| - 1];
      CountIsOfPostings(rest, id);
      assert forall k :: 0 <= k < |rest| ==> rest[k] == cs[k];
    }
  }

  /** What a session whose posting is made now is charged: nothing for a price of 0. */
  function Posting(id: Id, price: nat): seq<Charge> {
    if price == 0 then [] else [Charge(id, -(price as int))]
  }

  /** Billing that debits a session without a posting: settled at the price if the settle write was made; otherwise
      ended and, if that could be noted, waiting for review. The posting is there as soon as the hook worked. */
  ghost predicate BilledFirst(x: Session, cs: seq<Charge>, id: Id, l: Luck, y: Session, ds: seq<Charge>) {
    && ds == cs + (if l.hookWorks then Posting(id, l.price) else [])
    && y == (if l.hookWorks && !l.settle.Lost? then Session(x.connector, x.bound, Settled, NoReview, Some(l.price))
             else Session(x.connector, x.bound, Ended, if l.marks then Waiting else NoReview, None))
  }

  /** Closing a running session: without a vehicle, or when the meters deviate, it waits for review and is not
      charged; otherwise it is billed at once. */
  ghost predicate ClosedAs(x: Session, cs: seq<Charge>, id: Id, l: Luck, y: Session, ds: seq<Charge>) {
    && (!x.bound || l.deviates ==> ds == cs && y == Session(x.connector, x.bound, Ended, Waiting, None))
    && (x.bound && !l.deviates ==> BilledFirst(x, cs, id, l, y, ds))
  }

  /** A session of the station is closed; all others stay. */
  ghost predicate Closes(s: Station, id: Id, l: Luck, t: Station)
    requires id in s.sessions
  {
    && id in t.sessions && t.sessions == s.sessions[id := t.sessions[id]]
    && ClosedAs(s.sessions[id], s.charges, id, l, t.sessions[id], t.charges)
  }

  lemma FinishCloses(s: Station, id: Id, l: Luck)
    requires Inv(s) && id in s.sessions && s.sessions[id].status.Running?
    ensures if l.closes then Closes(s, id, l, Finished(s, id, l)) else Finished(s, id, l) == s
  {
    assert Agrees(s.sessions[id], s.charges, id);
    assert FirstCharge(s.charges, id).None?;
  }

  /** A stop closes a running session unless the closing write fails, and leaves any other session alone. */
  lemma StopCloses(s: Station, id: Id, l: Luck)
    requires Inv(s)
    ensures var t := Serve(s, Stop(id, l));
            if id in s.sessions && s.sessions[id].status.Running? && l.closes then Closes(s, id, l, t) else t == s
  {
    if id in s.sessions && s.sessions[id].status.Running? {
      FinishCloses(s, id, l);
    }
  }

  /** The session is added, running and not yet priced; without a vehicle it is to be reviewed in the end. */
  function WithNew(s: Station, id: Id, connector: Id, bound: bool): Station {
    Station(s.sessions[id := Session(connector, bound, Running, if bound then NoReview else Waiting, None)], s.charges)
  }

  lemma ClearedCloses(s: Station, connector: Id, l: Luck, stale: Id)
    requires Inv(s) && IsActive(s, connector, stale)
    ensures if l.closes then Closes(s, stale, l, Cleared(s, connector, l)) && !Busy(Cleared(s, connector, l), connector)
            else Cleared(s, connector, l) == s
  {
    assert Busy(s, connector) && ActiveOn(s, connector) == stale;
    FinishCloses(s, stale, l);
    var t := Cleared(s, connector, l);
    if l.closes && Busy(t, connector) {
      var i := ActiveOn(t, connector);
      assert i != stale ==> IsActive(s, connector, i);
    }
  }

  /** On a free connector a start adds the session and touches nothing else. */
  lemma StartOnFreeConnector(s: Station, id: Id, connector: Id, bound: bool, first: Luck, again: Luck)
    requires id !in s.sessions && forall i :: i in s.sessions && s.sessions[i].connector == connector ==> !s.sessions[i].status.Running?
    ensures Serve(s, Start(id, connector, bound, first, again)) == WithNew(s, id, connector, bound)
  {
    assert !Busy(s, connector);
  }

  /** A session left running on the connector is closed as a stop would close it, at the first attempt that writes,
      and then the new one is added; when neither attempt writes, nothing happens. */
  lemma StartClosesTheStale(s: Station, id: Id, connector: Id, bound: bool, first: Luck, again: Luck, stale: Id)
    requires Inv(s) && id !in s.sessions
    requires stale in s.sessions && s.sessions[stale].connector == connector && s.sessions[stale].status.Running?
    ensures var t := Serve(s, Start(id, connector, bound, first, again));
            && (!first.closes && !again.closes ==> t == s)
            && (first.closes || again.closes ==>
                  exists u :: Closes(s, stale, if first.closes then first else again, u) && t == WithNew(u, id, connector, bound))
  {
    assert IsActive(s, connector, stale);
    ClearedCloses(s, connector, first, stale);
    ClearedCloses(s, connector, again, stale);
    assert Busy(s, connector);
    var t := Serve(s, Start(id, connector, bound, first, again));
    if first.closes {
      var u := Cleared(s, connector, first);
      assert Closes(s, stale, first, u) && t == WithNew(u, id, connector, bound);
    } else if again.closes {
      var u := Cleared(s, connector, again);
      assert Closes(s, stale, again, u) && t == WithNew(u, id, connector, bound);
    }
  }

  /** A start that names a known session is not served again. */
  lemma StartIsNotRepeated(s: Station, id: Id, connector: Id, bound: bool, first: Luck, again: Luck)
    requires id in s.sessions
    ensures Serve(s, Start(id, connector, bound, first, again)) == s
  {
  }

  /** Exactly the ended sessions that wait are reviewed. */
  lemma ReviewIsGrantedIff(s: Station, id: Id)
    ensures ReviewReply(s, id) == NotFound <==> id !in s.sessions
    ensures ReviewReply(s, id) == Done <==>
              id in s.sessions && s.sessions[id].review == Waiting && s.sessions[id].status != Running
  {
  }

  /** An approval of an attributed session settles it, at its earlier debit if it has one and at the price otherwise;
      when the hook or the settle write fails it stays ended and waits on. */
  lemma ApprovalBills(s: Station, id: Id, bind: bool, l: Luck)
    requires Inv(s) && id in s.sessions && s.sessions[id].review == Waiting && s.sessions[id].status != Running
    ensures var x, t := s.sessions[id], Serve(s, Approve(id, true, bind, l));
            && id in t.sessions && t.sessions == s.sessions[id := t.sessions[id]]
            && t.charges == s.charges + (if l.hookWorks && !IsPaid(s.charges, id) then Posting(id, l.price) else [])
            && (!l.hookWorks || l.settle.Lost? ==> t.sessions[id] == Session(x.connector, x.bound || bind, Ended, Waiting, None))
            && (l.hookWorks && !l.settle.Lost? && !IsPaid(s.charges, id) ==>
                  t.sessions[id] == Session(x.connector, x.bound || bind, Settled, Approved, Some(l.price)))
            && (l.hookWorks && !l.settle.Lost? ==> forall k :: 0 <= k < |s.charges| && s.charges[k].session == id ==>
                  t.sessions[id] == Session(x.connector, x.bound || bind, Settled, Approved, Some(-s.charges[k].amount)))
  {
    assert Agrees(s.sessions[id], s.charges, id);
    FirstChargeIsFirst(s.charges, id);
    CountIsOfPostings(s.charges, id);
  }

  /** Without a driver or a vehicle to attribute it to, an approval does nothing; nor does any review that is not granted. */
  lemma UnattributedIsLeft(s: Station, id: Id, attributed: bool, bind: bool, l: Luck)
    ensures !attributed ==> Serve(s, Approve(id, attributed, bind, l)) == s
    ensures ReviewReply(s, id) != Done ==> Serve(s, Approve(id, attributed, bind, l)) == s && Serve(s, Reject(id)) == s
  {
  }

  /** A rejection ends the session without a cost and leaves the postings and all other sessions. */
  lemma RejectionEnds(s: Station, id: Id)
    requires id in s.sessions && s.sessions[id].review == Waiting && s.sessions[id].status != Running
    ensures var x := s.sessions[id];
            Serve(s, Reject(id)) == Station(s.sessions[id := Session(x.connector, x.bound, Ended, Rejected, None)], s.charges)
  {
  }

  ghost predicate PaysOne(s: Station, c: Charge) {
    && c.session in s.sessions && c.amount < 0 && s.sessions[c.session].status != Running
    && (s.sessions[c.session].status == Settled ==> s.sessions[c.session].cost == Some(-c.amount))
  }

  lemma OnlyPosting(s: Station, i: nat, j: nat)
    requires Inv(s) && i < j < |s.charges|
    ensures s.charges[i].session != s.charges[j].session
  {
    var id := s.charges[i].session;
    CountIsOfPostings(s.charges, id);
    assert id in s.sessions ==> Agrees(s.sessions[id], s.charges, id);
  }

  lemma OnePostingPays(s: Station, i: nat)
    requires Inv(s) && i < |s.charges|
    ensures PaysOne(s, s.charges[i])
  {
    var id := s.charges[i].session;
    FirstChargeIsFirst(s.charges, id);
    CountIsOfPostings(s.charges, id);
    assert IsPaid(s.charges, id);
    assert id in s.sessions;
    assert Agrees(s.sessions[id], s.charges, id);
    assert forall j :: 0 <= j < i ==> s.charges[j].session != id;
  }

  lemma SettledHasPosting(s: Station, id: Id)
    requires Inv(s) && id in s.sessions && s.sessions[id].status == Settled
    ensures s.sessions[id].cost.Some? && (s.sessions[id].cost.value != 0 ==> Charge(id, -s.sessions[id].cost.value) in s.charges)
  {
    assert Agrees(s.sessions[id], s.charges, id);
    FirstChargeIsFirst(s.charges, id);
    CountIsOfPostings(s.charges, id);
    if k :| 0 <= k < |s.charges| && s.charges[k].session == id {
      assert forall j :: 0 <= j < k ==> s.charges[j].session != id;
      assert s.charges[k] in s.charges;
    }
  }

  ghost predicate OnePostingEach(s: Station) {
    forall i, j :: 0 <= i < j < |s.charges| ==> s.charges[i].session != s.charges[j].session
  }

  ghost predicate PostingsPay(s: Station) {
    forall i :: 0 <= i < |s.charges| ==> PaysOne(s, s.charges[i])
  }

  ghost predicate SettledArePaid(s: Station) {
    forall id :: id in s.sessions && s.sessions[id].status == Settled ==>
      s.sessions[id].cost.Some? && (s.sessions[id].cost.value != 0 ==> Charge(id, -s.sessions[id].cost.value) in s.charges)
  }

  lemma PostingsAreOneEach(s: Station)
    requires Inv(s)
    ensures OnePostingEach(s)
  {
    forall i, j | 0 <= i < j < |s.charges| ensures s.charges[i].session != s.charges[j].session {
      OnlyPosting(s, i, j);
    }
  }

  lemma PostingsPayTheirSessions(s: Station)
    requires Inv(s)
    ensures PostingsPay(s)
  {
    forall i | 0 <= i < |s.charges| ensures PaysOne(s, s.charges[i]) {
      OnePostingPays(s, i);
    }
  }

  lemma SettledHavePostings(s: Station)
    requires Inv(s)
    ensures SettledArePaid(s)
  {
    forall id | id in s.sessions && s.sessions[id].status == Settled
      ensures s.sessions[id].cost.Some? && (s.sessions[id].cost.value != 0 ==> Charge(id, -s.sessions[id].cost.value) in s.charges) {
      SettledHasPosting(s, id);
    }
  }

  /** Every posting of a run is the only one of its session: a debit of a session that ended and, once that is
      settled, of exactly its cost. A session settled at a cost has its posting. */
  lemma EveryPostingPaysItsSession(requests: seq<Request>)
    ensures OnePostingEach(Run(requests)) && PostingsPay(Run(requests)) && SettledArePaid(Run(requests))
  {
    EveryRunKeepsInv(requests);
    PostingsAreOneEach(Run(requests));
    PostingsPayTheirSessions(Run(requests));
    SettledHavePostings(Run(requests));
  }
}
