/** What each step of the billing protocol leaves behind, job by job. */
module BillingEffects {
  import opened Basics
  import opened Ledger
  import opened BillingProtocol

  /** The books with one more posting: the account's balance moves by the amount, and nothing else changes. */
  function With(b: Books, k: Key, kind: Kind, amount: int, ref: Option<Id>): Books {
    var row := if k in b.accounts then b.accounts[k] else Account(0, 0, true);
    Books(b.accounts[k := Account(row.balance + amount, row.credit, row.active)],
          b.postings + [Posting(k, kind, amount, row.balance + amount, ref)])
  }

  lemma PostedIsWith(b: Books, k: Key, kind: Kind, yuan: real, ref: Option<Id>)
    ensures Posted(b, k, Read(b, k), kind, yuan, ref) == With(b, k, kind, Cents(yuan), ref)
  {
    WholeCentsStay(Read(b, k).balance + Cents(yuan));
  }

  lemma MovedIsWith(b: Books, from: Key, to: Key, yuan: real)
    requires from != to
    ensures Moved(b, from, Read(b, from), to, Read(b, to), yuan)
         == With(With(b, from, AllocatedOut, -Cents(yuan), Some(to.owner)), to, AllocatedIn, Cents(yuan), Some(from.owner))
  {
    RoundingIsOdd(yuan);
    PostedIsWith(b, from, AllocatedOut, -yuan, Some(to.owner));
    var out := With(b, from, AllocatedOut, -Cents(yuan), Some(to.owner));
    assert Read(out, to) == Read(b, to);
    PostedIsWith(out, to, AllocatedIn, yuan, Some(from.owner));
  }

  lemma DebitedIsWith(b: Books, k: Key, kind: Kind, cost: nat, ref: Id)
    requires cost != 0
    ensures Debited(b, k, Read(b, k), kind, -Yuan(cost), Some(ref)) == With(b, k, kind, -(cost as int), Some(ref))
  {
    WholeCentsStay(-(cost as int));
    assert -Yuan(cost) == Yuan(-(cost as int));
    PostedIsWith(b, k, kind, -Yuan(cost), Some(ref));
  }

  // ---- commits

  /** A recharge adds the rounded amount to the enterprise account. */
  lemma RechargeAdds(w: World, i: Id)
    requires Inv(w) && Enabled(w, i, Commit) && w.procs[i].job.Recharge?
    ensures var v := Step(w, i, Commit);
            v.trips == w.trips && v.books == With(w.books, Key(Enterprise, 0), Recharged, Cents(w.procs[i].job.yuan), None)
  {
    var p := w.procs[i];
    assert ReadsStand(w, p) && Holds(p, AccountRow(TENANT));
    PostedIsWith(w.books, TENANT, Recharged, p.job.yuan, None);
  }

  /** An adjustment adds the rounded signed amount to the account it names. */
  lemma AdjustmentAdds(w: World, i: Id)
    requires Inv(w) && Enabled(w, i, Commit) && w.procs[i].job.Adjust?
    ensures var v, job := Step(w, i, Commit), w.procs[i].job;
            v.trips == w.trips && v.books == With(w.books, job.which, Adjusted, Cents(job.yuan), None)
  {
    var p := w.procs[i];
    assert ReadsStand(w, p) && Holds(p, AccountRow(p.job.which));
    PostedIsWith(w.books, p.job.which, Adjusted, p.job.yuan, None);
  }

  /** An allocation takes the rounded amount from its source and gives it to its target, each posting naming the other. */
  lemma AllocationMoves(w: World, i: Id)
    requires Inv(w) && Enabled(w, i, Commit) && w.procs[i].job.Allocate?
    ensures var v, job := Step(w, i, Commit), w.procs[i].job;
            var from, to, amount := job.source, job.to.key, Cents(job.yuan);
            && from != to && v.trips == w.trips
            && v.books == With(With(w.books, from, AllocatedOut, -amount, Some(to.owner)), to, AllocatedIn, amount, Some(from.owner))
  {
    var p := w.procs[i];
    ReadyAllocationIsAllowed(w, p);
    MovedIsWith(w.books, p.job.source, p.job.to.key, p.job.yuan);
  }

  /** A charge takes the cost from its payer, or from the enterprise after the payer could not be resolved; a session
      that costs nothing leaves no posting. */
  lemma ChargeTakes(w: World, i: Id)
    requires Inv(w) && Enabled(w, i, Commit) && w.procs[i].job.ChargeSession?
    ensures var v, p := Step(w, i, Commit), w.procs[i];
            var payer := if p.fallback then Key(Enterprise, 0) else p.job.payer;
            && v.trips == w.trips
            && (p.job.cost != 0 ==> v.books == With(w.books, payer, ChargeCost, -(p.job.cost as int), Some(p.job.session)))
            && (p.job.cost == 0 ==> v.books.postings == w.books.postings && forall k :: Read(v.books, k) == Read(w.books, k))
  {
    var p := w.procs[i];
    assert ReadsStand(w, p);
    PayerIsRead(w, p);
    if p.job.cost != 0 {
      DebitedIsWith(w.books, Payer(p), ChargeCost, p.job.cost, p.job.session);
    }
  }

  /** A bill takes the cost from its payer and charges the trip, unless the trip turned out to be charged already. */
  lemma BillTakes(w: World, i: Id)
    requires Inv(w) && Enabled(w, i, Commit) && w.procs[i].job.BillTrip?
    ensures var v, job := Step(w, i, Commit), w.procs[i].job;
            && job.trip in w.trips
            && (w.trips[job.trip].status == Charged ==> v.books == w.books && v.trips == w.trips)
            && (w.trips[job.trip].status != Charged ==>
                  && v.trips == w.trips[job.trip := Bill(Charged, job.cost)]
                  && (job.cost != 0 ==> v.books == With(w.books, job.payer, TripCost, -(job.cost as int), Some(job.trip)))
                  && (job.cost == 0 ==> v.books.postings == w.books.postings && forall k :: Read(v.books, k) == Read(w.books, k)))
  {
    var p := w.procs[i];
    assert ReadsStand(w, p);
    if !p.billed {
      PayerIsRead(w, p);
      if p.job.cost != 0 {
        DebitedIsWith(w.books, p.job.payer, TripCost, p.job.cost, p.job.trip);
      }
    }
  }

  // ---- everything that is not a commit

  /** Money moves at commits only. */
  lemma OnlyCommitsMoveMoney(w: World, i: Id, a: Action, k: Key)
    requires !a.Commit?
    ensures Step(w, i, a).books.postings == w.books.postings
    ensures Read(Step(w, i, a).books, k).balance == Read(w.books, k).balance
  {
  }

  /** The failure marker leaves a charged trip charged and any other failed, with the cost that stood there. */
  lemma MarkerLeaves(w: World, i: Id)
    requires Inv(w) && Enabled(w, i, Mark)
    ensures var v, t := Step(w, i, Mark), w.procs[i].job.trip;
            && t in w.trips && v.books == w.books && v.procs[i].stage == Finished
            && v.trips == w.trips[t := Bill(if w.trips[t].status == Charged then Charged else Failed, w.trips[t].cost)]
  {
    assert ReadsStand(w, w.procs[i]);
  }

  /** After an error inside the transaction a bill goes on to its marker, a charge whose payer is not the enterprise
      starts again with the enterprise as payer, once, and everything else is over. */
  lemma ErrorLeadsTo(w: World, i: Id)
    requires Enabled(w, i, Crash)
    ensures var v, p := Step(w, i, Crash), w.procs[i];
            var q := v.procs[i];
            var again := p.stage.Running? && p.job.ChargeSession? && !p.fallback && p.job.payer.level != Enterprise;
            && v.books == w.books && v.trips == w.trips && q.job == p.job
            && q.fallback == (p.fallback || again)
            && q.stage == (if p.stage.Running? && p.job.BillTrip? then Marking else if again then Running(0) else Finished)
  {
  }

  ghost predicate WasCharged(ps: seq<Posting>, session: Id) {
    exists n :: 0 <= n < |ps| && ps[n].kind == ChargeCost && ps[n].ref == Some(session)
  }

  /** The look before the transaction ends a bill exactly when the trip is charged, and a charge exactly when the
      session has a charge posting; everybody else goes on to lock. */
  lemma LookEndsIff(w: World, i: Id)
    requires Inv(w) && Enabled(w, i, Look)
    ensures var p, q := w.procs[i], Step(w, i, Look).procs[i];
            && (q.stage == Finished || q.stage == Running(0))
            && (q.stage == Finished <==>
                  || (p.job.BillTrip? && p.job.trip in w.trips && w.trips[p.job.trip].status == Charged)
                  || (p.job.ChargeSession? && WasCharged(w.books.postings, p.job.session)))
  {
  }

  /** An allocation whose source is locked is denied exactly when the source is frozen, the levels are not enterprise
      to department or department to employee, or balance and credit limit do not cover the amount. */
  lemma AllocationIsDeniedIff(w: World, i: Id)
    requires Inv(w) && i in w.procs && w.procs[i].job.Allocate? && w.procs[i].stage.Running? && w.procs[i].stage.locks >= 1
    ensures var job := w.procs[i].job;
            var source := Read(w.books, job.source);
            Denied(w.procs[i]) <==>
              || !source.active
              || !((job.source.level == Enterprise && job.to.key.level == Department)
                   || (job.source.level == Department && job.to.key.level == Employee))
              || (source.balance + source.credit) as real / 100.0 + 0.000000001 < job.yuan
  {
    assert ReadsStand(w, w.procs[i]) && Holds(w.procs[i], AccountRow(w.procs[i].job.source));
  }

  predicate Covers(row: Account, yuan: real) {
    row.active && (row.balance + row.credit) as real / 100.0 + 0.000000001 >= yuan
  }

  predicate OneDown(from: Key, to: Key) {
    (from.level == Enterprise && to.level == Department) || (from.level == Department && to.level == Employee)
  }

  /** Inside the transaction, exactly these refuse themselves: an adjustment of an account that is not there, and an
      allocation whose source, or target named by its id, is not there, or whose locked source does not allow it. */
  lemma RefusedIff(w: World, i: Id)
    requires Inv(w) && i in w.procs && w.procs[i].stage.Running?
    ensures var job, locks := w.procs[i].job, w.procs[i].stage.locks;
            Enabled(w, i, Refuse) <==>
              || (job.Adjust? && locks == 0 && job.which !in w.books.accounts)
              || (job.Allocate? && locks == 0 && job.source !in w.books.accounts)
              || (job.Allocate? && locks == 1 && job.to.ById? && job.to.key !in w.books.accounts)
              || (job.Allocate? && locks >= 1
                  && !(Covers(Read(w.books, job.source), job.yuan) && OneDown(job.source, job.to.key)))
  {
    assert ReadsStand(w, w.procs[i]);
    if w.procs[i].job.Allocate? && w.procs[i].stage.locks >= 1 {
      AllocationIsDeniedIff(w, i);
    }
  }

  /** A caller can commit exactly when it has all its locks: two for an allocation, which must be allowed, two for a
      bill, or one when the trip under it is charged, and one for everything else. */
  lemma CommitsIff(w: World, i: Id)
    requires Inv(w) && i in w.procs && w.procs[i].stage.Running?
    ensures var job, locks := w.procs[i].job, w.procs[i].stage.locks;
            Enabled(w, i, Commit) <==>
              match job
              case Allocate(from, to, yuan) => locks == 2 && Covers(Read(w.books, from), yuan) && OneDown(from, to.key)
              case BillTrip(t, _, _) => locks == 2 || (locks == 1 && t in w.trips && w.trips[t].status == Charged)
              case _ => locks >= 1
  {
    assert ReadsStand(w, w.procs[i]);
    if w.procs[i].job.Allocate? && w.procs[i].stage.locks >= 1 {
      AllocationIsDeniedIff(w, i);
    }
  }
}
