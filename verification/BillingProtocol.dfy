/** The billing transactions running at once: row locks taken one by one, rows read under them, everything
    written at commit, and a failure possible at any moment. */
module BillingProtocol {
  import opened Basics
  import opened Ledger

  datatype Lock = TripRow(trip: Id) | AccountRow(key: Key)

  function Rank(l: Lock): nat {
    match l
    case TripRow(_) => 0
    case AccountRow(k) => match k.level { case Enterprise => 1 case Department => 2 case Employee => 3 }
  }

  /** What a caller asks for. Costs are priced beforehand, each caller for itself, in cents. */
  datatype Job =
    | Recharge(yuan: real)
    | Allocate(source: Key, to: Target, yuan: real)
    | Adjust(which: Key, yuan: real)
    | ChargeSession(session: Id, payer: Key, cost: nat)
    | BillTrip(trip: Id, payer: Key, cost: nat)

  /** Before the transaction, inside it with so many locks, about to write the failure marker, or over. */
  datatype Stage = Reading | Running(locks: nat) | Marking | Finished

  /** One caller: its job, where it stands, whether it fell back to the enterprise account, what it read under
      its locks (rows, and whether the trip was charged), and how many postings there were at its lookup. */
  datatype Proc = Proc(job: Job, stage: Stage, fallback: bool, rows: map<Key, Account>, billed: bool, seen: nat)

  datatype Billing = Unbilled | Charged | Failed
  datatype Bill = Bill(status: Billing, cost: nat)

  datatype World = World(books: Books, trips: map<Id, Bill>, procs: map<Id, Proc>)

  // ---- the locks of a job, in the order it takes them

  function First(p: Proc): Lock {
    match p.job
    case Recharge(_) => AccountRow(TENANT)
    case Allocate(from, _, _) => AccountRow(from)
    case Adjust(k, _) => AccountRow(k)
    case ChargeSession(_, payer, _) => AccountRow(if p.fallback then TENANT else payer)
    case BillTrip(t, _, _) => TripRow(t)
  }

  /** The second lock: an allocation asks for it only between the right levels, and a trip's bill
      only when the trip, read again under its lock, is not charged. */
  function Second(p: Proc): Option<Lock> {
    match p.job
    case Allocate(from, to, _) => if CanAllocate(from.level, to.key.level) then Some(AccountRow(to.key)) else None
    case BillTrip(_, payer, _) => if p.billed then None else Some(AccountRow(payer))
    case _ => None
  }

  function Wanted(p: Proc): Option<Lock> {
    match p.stage
    case Running(n) => if n == 0 then Some(First(p)) else if n == 1 then Second(p) else None
    case Marking => if p.job.BillTrip? then Some(TripRow(p.job.trip)) else None
    case _ => None
  }

  predicate Holds(p: Proc, l: Lock) {
    p.stage.Running? && ((p.stage.locks >= 1 && First(p) == l) || (p.stage.locks >= 2 && Second(p) == Some(l)))
  }

  ghost predicate IsFree(w: World, l: Lock) {
    forall i :: i in w.procs ==> !Holds(w.procs[i], l)
  }

  // ---- what a caller checks for itself

  /** The row about to be locked has to be there already: an account named by its id. */
  predicate Missing(w: World, p: Proc) {
    p.stage.Running? &&
    match p.job
    case Adjust(k, _) => p.stage.locks == 0 && k !in w.books.accounts
    case Allocate(from, to, _) =>
      (p.stage.locks == 0 && from !in w.books.accounts) ||
      (p.stage.locks == 1 && to.ById? && to.key !in w.books.accounts)
    case _ => false
  }

  predicate Denied(p: Proc) {
    p.stage.Running? && p.job.Allocate? && p.stage.locks >= 1 && p.job.source in p.rows &&
    (!p.rows[p.job.source].active
     || !CanAllocate(p.job.source.level, p.job.to.key.level)
     || !Sufficient(p.rows[p.job.source], p.job.yuan))
  }

  predicate HasCharge(ps: seq<Posting>, session: Id) {
    exists i :: 0 <= i < |ps| && ps[i].kind.ChargeCost? && ps[i].ref == Some(session)
  }

  // ---- steps

  datatype Action =
    | Completes(trip: Id)                                  // a trip ends and can be billed
    | Begin(job: Job)
    | Look                                                 // the reads before the transaction
    | Take                                                 // get the next lock and read the row
    | Commit
    | Refuse                                               // a check of its own fails: roll back
    | Crash                                                // any error, at any moment: roll back
    | Mark                                                 // write 'failed' unless charged
    | Configure(which: Key, credit: nat, active: bool)     // an account's settings are edited

  predicate Ready(p: Proc) {
    p.stage.Running? && Wanted(p).None? && !Denied(p)
  }

  ghost predicate Enabled(w: World, i: Id, a: Action) {
    match a
    case Completes(t) => t !in w.trips
    case Begin(job) => i !in w.procs && (job.BillTrip? ==> job.trip in w.trips)
    case Look => i in w.procs && w.procs[i].stage.Reading?
    case Take =>
      && i in w.procs && w.procs[i].stage.Running? && Wanted(w.procs[i]).Some?
      && IsFree(w, Wanted(w.procs[i]).value) && !Missing(w, w.procs[i])
    case Commit => i in w.procs && Ready(w.procs[i])
    case Refuse => i in w.procs && (Missing(w, w.procs[i]) || Denied(w.procs[i]))
    case Crash => i in w.procs && !w.procs[i].stage.Finished?
    case Mark => i in w.procs && w.procs[i].stage.Marking? && Wanted(w.procs[i]).Some? && IsFree(w, Wanted(w.procs[i]).value)
    case Configure(k, _, _) => k in w.books.accounts && IsFree(w, AccountRow(k))
  }

  function Looked(w: World, p: Proc): Proc {
    match p.job
    case BillTrip(t, _, _) => p.(stage := if t in w.trips && w.trips[t].status.Charged? then Finished else Running(0))
    case ChargeSession(x, _, _) =>
      p.(stage := if HasCharge(w.books.postings, x) then Finished else Running(0), seen := |w.books.postings|)
    case _ => p.(stage := Running(0))
  }

  function Taken(w: World, p: Proc): Proc
    requires p.stage.Running? && Wanted(p).Some?
  {
    var q := p.(stage := Running(p.stage.locks + 1));
    match Wanted(p).value
    case TripRow(t) => q.(billed := t in w.trips && w.trips[t].status.Charged?)
    case AccountRow(k) => q.(rows := p.rows[k := Read(w.books, k)])
  }

  function RolledBack(p: Proc): Proc {
    var q := p.(rows := map[], billed := false);
    if !p.stage.Running? then q.(stage := Finished)
    else if p.job.BillTrip? then q.(stage := Marking)
    else if p.job.ChargeSession? && !p.fallback && !p.job.payer.level.Enterprise? then q.(stage := Running(0), fallback := true)
    else q.(stage := Finished)
  }

  function RowRead(p: Proc, k: Key): Account {
    if k in p.rows then p.rows[k] else BLANK
  }

  /** Who pays for a session or a trip. */
  function Payer(p: Proc): Key
    requires p.job.ChargeSession? || p.job.BillTrip?
  {
    if p.fallback then TENANT else p.job.payer
  }

  /** The books after the commit, written from the rows that were read. */
  function BooksAfter(b: Books, p: Proc): Books {
    match p.job
    case Recharge(yuan) => Posted(b, TENANT, RowRead(p, TENANT), Recharged, yuan, None)
    case Allocate(from, to, yuan) => Moved(b, from, RowRead(p, from), to.key, RowRead(p, to.key), yuan)
    case Adjust(k, yuan) => Posted(b, k, RowRead(p, k), Adjusted, yuan, None)
    case ChargeSession(x, _, cost) => Debited(b, Payer(p), RowRead(p, Payer(p)), ChargeCost, -Yuan(cost), Some(x))
    case BillTrip(t, payer, cost) =>
      if p.billed then b else Debited(b, payer, RowRead(p, payer), TripCost, -Yuan(cost), Some(t))
  }

  function TripsAfter(trips: map<Id, Bill>, p: Proc): map<Id, Bill> {
    if p.job.BillTrip? && !p.billed then trips[p.job.trip := Bill(Charged, p.job.cost)] else trips
  }

  function Marked(trips: map<Id, Bill>, t: Id): map<Id, Bill> {
    if t in trips && !trips[t].status.Charged? then trips[t := trips[t].(status := Failed)] else trips
  }

  ghost function Step(w: World, i: Id, a: Action): World {
    if !Enabled(w, i, a) then w
    else match a
      case Completes(t) => w.(trips := w.trips[t := Bill(Unbilled, 0)])
      case Begin(job) => w.(procs := w.procs[i := Proc(job, Reading, false, map[], false, 0)])
      case Look => w.(procs := w.procs[i := Looked(w, w.procs[i])])
      case Take => w.(procs := w.procs[i := Taken(w, w.procs[i])])
      case Commit =>
        var p := w.procs[i];
        World(BooksAfter(w.books, p), TripsAfter(w.trips, p), w.procs[i := p.(stage := Finished)])
      case Refuse => w.(procs := w.procs[i := RolledBack(w.procs[i])])
      case Crash => w.(procs := w.procs[i := RolledBack(w.procs[i])])
      case Mark =>
        var p := w.procs[i];
        w.(trips := Marked(w.trips, p.job.trip), procs := w.procs[i := p.(stage := Finished)])
      case Configure(k, credit, active) =>
        w.(books := w.books.(accounts := w.books.accounts[k := w.books.accounts[k].(credit := credit, active := active)]))
  }

  const NOBODY: World := World(Books(map[], []), map[], map[])

  ghost function Run(steps: seq<(Id, Action)>): World {
    if steps == [] then NOBODY
    else
      var last := steps[|steps| - 1];
      Step(Run(steps[..|steps| - 1]), last.0, last.1)
  }

  // ---- locks: order, no waiting in a circle, somebody can always go on

  /** Whatever a caller waits for ranks above everything it holds. */
  lemma LocksAscend(p: Proc, held: Lock)
    requires Holds(p, held) && Wanted(p).Some?
    ensures Rank(held) < Rank(Wanted(p).value)
  {
  }

  ghost predicate WaitsFor(w: World, i: Id, j: Id) {
    i in w.procs && j in w.procs && Wanted(w.procs[i]).Some? && Holds(w.procs[j], Wanted(w.procs[i]).value)
  }

  ghost predicate WaitChain(w: World, path: seq<Id>) {
    forall n :: 0 < n < |path| ==> WaitsFor(w, path[n - 1], path[n])
  }

  lemma {:induction false} RanksRise(w: World, path: seq<Id>)
    requires |path| >= 2 && WaitChain(w, path)
    requires path[|path| - 1] in w.procs && Wanted(w.procs[path[|path| - 1]]).Some?
    ensures WaitsFor(w, path[0], path[1])
    ensures Rank(Wanted(w.procs[path[0]]).value) < Rank(Wanted(w.procs[path[|path| - 1]]).value)
  {
    assert WaitsFor(w, path[0], path[1]);
    var held := Wanted(w.procs[path[0]]).value;
    if |path| > 2 {
      assert forall n :: 0 < n < |path[1..]| ==> path[1..][n - 1] == path[n] && path[1..][n] == path[n + 1];
      RanksRise(w, path[1..]);
    }
    LocksAscend(w.procs[path[1]], held);
  }

  /** No caller waits, over any number of others, for itself. */
  lemma NoWaitCycle(w: World, path: seq<Id>)
    requires |path| >= 2 && WaitChain(w, path)
    ensures path[0] != path[|path| - 1]
  {
    if path[0] == path[|path| - 1] {
      assert WaitsFor(w, path[0], path[1]);
      RanksRise(w, path);
      assert false;
    }
  }

  ghost predicate Blocked(w: World, i: Id) {
    i in w.procs && Wanted(w.procs[i]).Some? && !IsFree(w, Wanted(w.procs[i]).value)
  }

  /** As long as somebody is unfinished, somebody unfinished is not waiting for a lock. */
  lemma {:induction false} SomeoneIsNotBlocked(w: World, i: Id) returns (j: Id)
    requires i in w.procs && !w.procs[i].stage.Finished?
    ensures j in w.procs && !w.procs[j].stage.Finished? && !Blocked(w, j)
    decreases if Wanted(w.procs[i]).Some? then 3 - Rank(Wanted(w.procs[i]).value) else 4
  {
    if !Blocked(w, i) {
      return i;
    }
    var held := Wanted(w.procs[i]).value;
    var k :| k in w.procs && Holds(w.procs[k], held);
    if !Blocked(w, k) {
      return k;
    }
    LocksAscend(w.procs[k], held);
    j := SomeoneIsNotBlocked(w, k);
  }

  /** A caller that is not waiting has a step of its own to take, without any error. */
  lemma UnblockedCanStep(w: World, i: Id) returns (a: Action)
    requires i in w.procs && !w.procs[i].stage.Finished? && !Blocked(w, i)
    requires w.procs[i].stage.Marking? ==> w.procs[i].job.BillTrip?
    ensures Enabled(w, i, a) && (a.Look? || a.Take? || a.Commit? || a.Refuse? || a.Mark?)
  {
    var p := w.procs[i];
    a := if p.stage.Reading? then Look
         else if p.stage.Marking? then Mark
         else if Missing(w, p) || Denied(p) then Refuse
         else if Wanted(p).Some? then Take
         else Commit;
  }

  /** How many steps a caller can still take at most. */
  function Remaining(p: Proc): int {
    match p.stage
    case Reading => 8
    case Running(n) => (if p.fallback then 4 else 7) - n
    case Marking => 1
    case Finished => 0
  }

  predicate Steady(p: Proc) {
    && (p.stage.Running? ==> p.stage.locks <= 2)
    && (p.stage.Marking? ==> p.job.BillTrip?)
  }

  /** Each step a caller takes brings it nearer to its end, and moves nobody else. */
  lemma EveryStepGetsNearer(w: World, i: Id, a: Action)
    requires i in w.procs && Steady(w.procs[i]) && Enabled(w, i, a) && !a.Completes? && !a.Configure?
    ensures var v := Step(w, i, a);
            && i in v.procs && Steady(v.procs[i])
            && 0 <= Remaining(v.procs[i]) < Remaining(w.procs[i])
            && forall j :: j in w.procs && j != i ==> j in v.procs && v.procs[j] == w.procs[j]
  {
  }

  // ---- what every interleaving keeps

  /** What a caller read under its locks is still what the tables say. */
  ghost predicate ReadsStand(w: World, p: Proc) {
    && Steady(p)
    && (forall k :: Holds(p, AccountRow(k)) ==> k in p.rows && p.rows[k] == Read(w.books, k))
    && (p.stage.Running? && p.job.BillTrip? && p.stage.locks >= 1 ==>
          p.job.trip in w.trips && p.billed == w.trips[p.job.trip].status.Charged?)
    && (p.job.BillTrip? ==> p.job.trip in w.trips)
    && (p.fallback ==> p.job.ChargeSession?)
  }

  ghost predicate AllReadsStand(w: World) {
    forall i :: i in w.procs ==> ReadsStand(w, w.procs[i])
  }

  ghost predicate Exclusive(w: World) {
    forall i, j, l :: i in w.procs && j in w.procs && Holds(w.procs[i], l) && Holds(w.procs[j], l) ==> i == j
  }

  function CountOf(ps: seq<Posting>, kind: Kind, ref: Id): nat {
    if ps == [] then 0
    else
      var last := ps[|ps| - 1];
      CountOf(ps[..|ps| - 1], kind, ref) + if last.kind == kind && last.ref == Some(ref) then 1 else 0
  }

  predicate Paid(trips: map<Id, Bill>, t: Id) {
    t in trips && trips[t].status.Charged? && trips[t].cost != 0
  }

  /** Every trip posting pays a charged trip, by minus its cost. */
  ghost predicate AmountsAreCosts(ps: seq<Posting>, trips: map<Id, Bill>) {
    forall n :: 0 <= n < |ps| ==> AmountIsCost(trips, ps[n])
  }

  ghost predicate AmountIsCost(trips: map<Id, Bill>, p: Posting) {
    p.kind.TripCost? ==>
      p.ref.Some? && Paid(trips, p.ref.value) && p.amount == -(trips[p.ref.value].cost as int)
  }

  /** One posting for each charged trip that cost something, and no other trip posting. */
  ghost predicate BilledOnce(w: World) {
    && (forall t :: CountOf(w.books.postings, TripCost, t) == if Paid(w.trips, t) then 1 else 0)
    && AmountsAreCosts(w.books.postings, w.trips)
  }

  ghost predicate Inv(w: World) {
    AllReadsStand(w) && Exclusive(w) && Balanced(w.books) && BilledOnce(w)
  }

  // ---- proofs: one caller moves and the tables stay

  lemma MoveKeepsReads(w: World, i: Id, p: Proc)
    requires AllReadsStand(w) && ReadsStand(w, p)
    ensures AllReadsStand(w.(procs := w.procs[i := p]))
  {
    var v := w.(procs := w.procs[i := p]);
    assert forall j :: j in w.procs && j != i ==> (ReadsStand(w, w.procs[j]) ==> ReadsStand(v, v.procs[j]));
  }

  lemma MoveKeepsExclusive(w: World, i: Id, p: Proc)
    requires Exclusive(w)
    requires forall l :: Holds(p, l) ==> IsFree(w, l) || (i in w.procs && Holds(w.procs[i], l))
    ensures Exclusive(w.(procs := w.procs[i := p]))
  {
  }

  lemma TakeKeepsReads(w: World, p: Proc)
    requires ReadsStand(w, p) && p.stage.Running? && Wanted(p).Some?
    ensures ReadsStand(w, Taken(w, p))
  {
    var q := Taken(w, p);
    forall k | Holds(q, AccountRow(k)) ensures k in q.rows && q.rows[k] == Read(w.books, k) {
      if !Holds(p, AccountRow(k)) {
        assert Wanted(p) == Some(AccountRow(k));
      }
    }
  }

  lemma CallerStepKeepsInv(w: World, i: Id, a: Action)
    requires Inv(w) && Enabled(w, i, a) && (a.Begin? || a.Look? || a.Take? || a.Refuse? || a.Crash?)
    ensures Inv(Step(w, i, a))
  {
    var q := if a.Begin? then Proc(a.job, Reading, false, map[], false, 0)
             else if a.Look? then Looked(w, w.procs[i])
             else if a.Take? then Taken(w, w.procs[i])
             else RolledBack(w.procs[i]);
    if a.Take? {
      TakeKeepsReads(w, w.procs[i]);
    }
    MoveKeepsReads(w, i, q);
    MoveKeepsExclusive(w, i, q);
    assert Step(w, i, a) == w.(procs := w.procs[i := q]);
  }

  // ---- proofs: a commit

  // Only rows under the caller's own locks are written.
  lemma CommitWritesHeldRows(b: Books, p: Proc, k: Key)
    requires Ready(p) && Steady(p) && (p.fallback ==> p.job.ChargeSession?) && !Holds(p, AccountRow(k))
    requires p.job.Allocate? ==> CanAllocate(p.job.source.level, p.job.to.key.level)
    ensures Read(BooksAfter(b, p), k) == Read(b, k)
  {
  }

  lemma ReadyAllocationIsAllowed(w: World, p: Proc)
    requires ReadsStand(w, p) && Ready(p) && p.job.Allocate?
    ensures CanAllocate(p.job.source.level, p.job.to.key.level) && p.stage.locks == 2
    ensures Read(w.books, p.job.source).active && Sufficient(Read(w.books, p.job.source), p.job.yuan)
    ensures RowRead(p, p.job.source) == Read(w.books, p.job.source) && RowRead(p, p.job.to.key) == Read(w.books, p.job.to.key)
  {
    assert Holds(p, AccountRow(p.job.source));
    assert Second(p).Some?;
    assert Holds(p, AccountRow(p.job.to.key));
  }

  lemma CommitBalances(w: World, p: Proc)
    requires ReadsStand(w, p) && Ready(p) && Balanced(w.books)
    ensures Balanced(BooksAfter(w.books, p))
  {
    match p.job
    case Recharge(yuan) =>
      assert Holds(p, AccountRow(TENANT));
      PostKeepsBalance(w.books, TENANT, Recharged, yuan, None);
    case Allocate(from, to, yuan) =>
      ReadyAllocationIsAllowed(w, p);
      MoveKeepsBalance(w.books, from, to.key, yuan);
    case Adjust(k, yuan) =>
      assert Holds(p, AccountRow(k));
      PostKeepsBalance(w.books, k, Adjusted, yuan, None);
    case _ => DebitCommitBalances(w, p);
  }

  lemma DebitCommitBalances(w: World, p: Proc)
    requires ReadsStand(w, p) && Ready(p) && Balanced(w.books) && (p.job.ChargeSession? || p.job.BillTrip?)
    ensures Balanced(BooksAfter(w.books, p))
  {
    if !p.job.BillTrip? || !p.billed {
      PayerIsRead(w, p);
      DebitKeepsBalance(w.books, Payer(p), if p.job.BillTrip? then TripCost else ChargeCost, -Yuan(p.job.cost),
                        Some(if p.job.BillTrip? then p.job.trip else p.job.session));
    }
  }

  // The payer's row is locked and read before it is debited.
  lemma PayerIsRead(w: World, p: Proc)
    requires ReadsStand(w, p) && Ready(p) && (p.job.ChargeSession? || (p.job.BillTrip? && !p.billed))
    ensures RowRead(p, Payer(p)) == Read(w.books, Payer(p))
  {
    assert Holds(p, AccountRow(Payer(p)));
  }

  /** The posting a debit of so many cents leaves. */
  lemma DebitAppends(b: Books, k: Key, read: Account, kind: Kind, cost: nat, ref: Id)
    ensures var c := Debited(b, k, read, kind, -Yuan(cost), Some(ref));
            c.postings == if cost == 0 then b.postings
                          else b.postings + [Posting(k, kind, -(cost as int), read.balance - cost, Some(ref))]
  {
    WholeCentsStay(-(cost as int));
    assert -Yuan(cost) == Yuan(-(cost as int));
    WholeCentsStay(read.balance - cost);
  }

  lemma CountAfter(ps: seq<Posting>, x: Posting, kind: Kind, ref: Id)
    ensures CountOf(ps + [x], kind, ref) == CountOf(ps, kind, ref) + if x.kind == kind && x.ref == Some(ref) then 1 else 0
  {
    assert (ps + [x])[..|ps|] == ps;
  }

  // No other job leaves a trip posting.
  lemma OthersLeaveTripPostings(b: Books, p: Proc, t: Id)
    requires !p.job.BillTrip?
    ensures var c := BooksAfter(b, p);
            && CountOf(c.postings, TripCost, t) == CountOf(b.postings, TripCost, t)
            && |c.postings| >= |b.postings| && c.postings[..|b.postings|] == b.postings
            && forall n :: |b.postings| <= n < |c.postings| ==> !c.postings[n].kind.TripCost?
  {
    var c := BooksAfter(b, p);
    if p.job.Allocate? {
      var out := Posted(b, p.job.source, RowRead(p, p.job.source), AllocatedOut, -p.job.yuan, Some(p.job.to.key.owner));
      TwoMore(b.postings, out.postings[|b.postings|], c.postings[|b.postings| + 1], t);
    } else if |c.postings| > |b.postings| {
      CountAfter(b.postings, c.postings[|b.postings|], TripCost, t);
    }
  }

  lemma TwoMore(ps: seq<Posting>, x: Posting, y: Posting, t: Id)
    requires !x.kind.TripCost? && !y.kind.TripCost?
    ensures CountOf(ps + [x] + [y], TripCost, t) == CountOf(ps, TripCost, t)
  {
    CountAfter(ps, x, TripCost, t);
    CountAfter(ps + [x], y, TripCost, t);
  }

  lemma OtherCommitKeepsBilledOnce(w: World, p: Proc)
    requires BilledOnce(w) && !p.job.BillTrip?
    ensures BilledOnce(World(BooksAfter(w.books, p), w.trips, w.procs))
  {
    var v := World(BooksAfter(w.books, p), w.trips, w.procs);
    forall t: Id ensures CountOf(v.books.postings, TripCost, t) == if Paid(w.trips, t) then 1 else 0 {
      OthersLeaveTripPostings(w.books, p, t);
      assert CountOf(w.books.postings, TripCost, t) == if Paid(w.trips, t) then 1 else 0;
    }
    OthersLeaveTripPostings(w.books, p, 0);
    forall n | 0 <= n < |v.books.postings| ensures AmountIsCost(w.trips, v.books.postings[n]) {
      assert n < |w.books.postings| ==> v.books.postings[n] == v.books.postings[..|w.books.postings|][n];
      assert n < |w.books.postings| ==> AmountIsCost(w.trips, w.books.postings[n]);
    }
  }

  // The postings of a bill that is not yet charged: one more for its own trip, if it costs something.
  lemma BillCounts(w: World, p: Proc, u: Id)
    requires p.job.BillTrip? && !p.billed && p.job.trip in w.trips && !w.trips[p.job.trip].status.Charged?
    requires CountOf(w.books.postings, TripCost, u) == if Paid(w.trips, u) then 1 else 0
    ensures CountOf(BooksAfter(w.books, p).postings, TripCost, u) == if Paid(TripsAfter(w.trips, p), u) then 1 else 0
  {
    var ps, qs := w.books.postings, BooksAfter(w.books, p).postings;
    DebitAppends(w.books, p.job.payer, RowRead(p, p.job.payer), TripCost, p.job.cost, p.job.trip);
    if p.job.cost != 0 {
      CountAfter(ps, qs[|ps|], TripCost, u);
    }
  }

  lemma BillCommitKeepsBilledOnce(w: World, p: Proc)
    requires BilledOnce(w) && p.job.BillTrip? && !p.billed
    requires p.job.trip in w.trips && !w.trips[p.job.trip].status.Charged?
    ensures BilledOnce(World(BooksAfter(w.books, p), TripsAfter(w.trips, p), w.procs))
  {
    var v := World(BooksAfter(w.books, p), TripsAfter(w.trips, p), w.procs);
    forall u: Id ensures CountOf(v.books.postings, TripCost, u) == if Paid(v.trips, u) then 1 else 0 {
      assert CountOf(w.books.postings, TripCost, u) == if Paid(w.trips, u) then 1 else 0;
      BillCounts(w, p, u);
    }
    BillAmounts(w, p);
  }

  lemma BillAmounts(w: World, p: Proc)
    requires AmountsAreCosts(w.books.postings, w.trips) && p.job.BillTrip? && !p.billed
    requires p.job.trip in w.trips && !w.trips[p.job.trip].status.Charged?
    ensures AmountsAreCosts(BooksAfter(w.books, p).postings, TripsAfter(w.trips, p))
  {
    var ps, qs := w.books.postings, BooksAfter(w.books, p).postings;
    DebitAppends(w.books, p.job.payer, RowRead(p, p.job.payer), TripCost, p.job.cost, p.job.trip);
    forall n | 0 <= n < |qs| ensures AmountIsCost(TripsAfter(w.trips, p), qs[n]) {
      assert n < |ps| ==> AmountIsCost(w.trips, ps[n]) && qs[n] == ps[n];
    }
  }

  lemma CommitKeepsOthersReads(w: World, i: Id, j: Id)
    requires AllReadsStand(w) && Exclusive(w) && i in w.procs && Ready(w.procs[i]) && j in w.procs && j != i
    ensures ReadsStand(World(BooksAfter(w.books, w.procs[i]), TripsAfter(w.trips, w.procs[i]), w.procs), w.procs[j])
  {
    var p, q := w.procs[i], w.procs[j];
    if p.job.Allocate? {
      ReadyAllocationIsAllowed(w, p);
    }
    forall k | Holds(q, AccountRow(k)) ensures Read(BooksAfter(w.books, p), k) == Read(w.books, k) {
      assert !Holds(p, AccountRow(k));
      CommitWritesHeldRows(w.books, p, k);
    }
    if p.job.BillTrip? && q.job.BillTrip? && q.stage.Running? && q.stage.locks >= 1 {
      assert Holds(p, TripRow(p.job.trip)) && Holds(q, TripRow(q.job.trip));
    }
  }

  lemma CommitKeepsInv(w: World, i: Id)
    requires Inv(w) && Enabled(w, i, Commit)
    ensures Inv(Step(w, i, Commit))
  {
    var p := w.procs[i];
    var mid := World(BooksAfter(w.books, p), TripsAfter(w.trips, p), w.procs);
    var v := Step(w, i, Commit);
    CommitBalances(w, p);
    if p.job.BillTrip? {
      if !p.billed {
        BillCommitKeepsBilledOnce(w, p);
      }
    } else {
      OtherCommitKeepsBilledOnce(w, p);
    }
    forall j | j in w.procs && j != i ensures ReadsStand(v, w.procs[j]) {
      CommitKeepsOthersReads(w, i, j);
    }
    MoveKeepsExclusive(w, i, p.(stage := Finished));
  }

  // ---- proofs: the failure marker, new trips, edited accounts

  lemma MarkKeepsInv(w: World, i: Id)
    requires Inv(w) && Enabled(w, i, Mark)
    ensures Inv(Step(w, i, Mark))
  {
    var p, v := w.procs[i], Step(w, i, Mark);
    var t := p.job.trip;
    forall j | j in w.procs && j != i ensures ReadsStand(v, w.procs[j]) {
      assert ReadsStand(w, w.procs[j]) && !Holds(w.procs[j], TripRow(t));
    }
    MoveKeepsExclusive(w, i, p.(stage := Finished));
    assert forall u :: Paid(v.trips, u) == Paid(w.trips, u);
  }

  lemma CompletesKeepsInv(w: World, i: Id, t: Id)
    requires Inv(w) && t !in w.trips
    ensures Inv(Step(w, i, Completes(t)))
  {
    var v := Step(w, i, Completes(t));
    forall j | j in w.procs ensures ReadsStand(v, w.procs[j]) {
      assert ReadsStand(w, w.procs[j]);
    }
    assert forall u :: Paid(v.trips, u) == Paid(w.trips, u);
  }

  lemma ConfigureKeepsInv(w: World, i: Id, k: Key, credit: nat, active: bool)
    requires Inv(w) && Enabled(w, i, Configure(k, credit, active))
    ensures Inv(Step(w, i, Configure(k, credit, active)))
  {
    var v := Step(w, i, Configure(k, credit, active));
    forall j | j in w.procs ensures ReadsStand(v, w.procs[j]) {
      assert ReadsStand(w, w.procs[j]) && !Holds(w.procs[j], AccountRow(k));
    }
    forall n: Key ensures Read(v.books, n).balance == LastAfter(v.books.postings, n) {
      assert Read(w.books, n).balance == LastAfter(w.books.postings, n);
    }
  }

  // ---- what holds in every interleaving

  lemma StepKeepsInv(w: World, i: Id, a: Action)
    requires Inv(w)
    ensures Inv(Step(w, i, a))
  {
    if Enabled(w, i, a) {
      if a.Commit? {
        CommitKeepsInv(w, i);
      } else if a.Mark? {
        MarkKeepsInv(w, i);
      } else if a.Completes? {
        CompletesKeepsInv(w, i, a.trip);
      } else if a.Configure? {
        ConfigureKeepsInv(w, i, a.which, a.credit, a.active);
      } else {
        CallerStepKeepsInv(w, i, a);
      }
    }
  }

  lemma {:induction false} EveryRunKeepsInv(steps: seq<(Id, Action)>)
    ensures Inv(Run(steps))
  {
    if steps != [] {
      var last := steps[|steps| - 1];
      EveryRunKeepsInv(steps[..|steps| - 1]);
      StepKeepsInv(Run(steps[..|steps| - 1]), last.0, last.1);
    }
  }

  /** In every interleaving each account's balance is its last balance_after and the sum of its postings. */
  lemma BooksAlwaysBalance(steps: seq<(Id, Action)>, k: Key)
    ensures var b := Run(steps).books; Read(b, k).balance == LastAfter(b.postings, k) == SumFor(b.postings, k)
  {
    EveryRunKeepsInv(steps);
    BalanceIsSumOfPostings(Run(steps).books, k);
  }

  /** No two callers hold the same lock. */
  lemma LocksAreExclusive(steps: seq<(Id, Action)>, i: Id, j: Id, l: Lock)
    requires var w := Run(steps); i in w.procs && j in w.procs && Holds(w.procs[i], l) && Holds(w.procs[j], l)
    ensures i == j
  {
    EveryRunKeepsInv(steps);
  }

  /** However many callers bill the same trip, it is paid for at most once, and exactly once
      when it is charged and cost something, by minus its cost. */
  lemma TripIsBilledOnce(steps: seq<(Id, Action)>, t: Id)
    requires t in Run(steps).trips
    ensures var w := Run(steps);
            && CountOf(w.books.postings, TripCost, t) <= 1
            && (w.trips[t].status.Charged? && w.trips[t].cost != 0 <==> CountOf(w.books.postings, TripCost, t) == 1)
    ensures var w := Run(steps);
            forall n :: 0 <= n < |w.books.postings| && w.books.postings[n].kind.TripCost? && w.books.postings[n].ref == Some(t) ==>
              w.books.postings[n].amount == -(w.trips[t].cost as int)
  {
    EveryRunKeepsInv(steps);
    var w := Run(steps);
    assert CountOf(w.books.postings, TripCost, t) == if Paid(w.trips, t) then 1 else 0;
  }

  /** A charged trip's row is never written again: not by the failure marker and not by another bill. */
  lemma ChargedIsFinal(w: World, i: Id, a: Action, t: Id)
    requires Inv(w) && t in w.trips && w.trips[t].status.Charged?
    ensures t in Step(w, i, a).trips && Step(w, i, a).trips[t] == w.trips[t]
  {
    if Enabled(w, i, a) && a.Commit? {
      var p := w.procs[i];
      assert ReadsStand(w, p);
    }
  }

  /** A committed allocation leaves the tenant's total and does not overdraw its source, whatever
      the other callers were doing meanwhile. */
  lemma AllocationConserves(w: World, i: Id)
    requires Inv(w) && Enabled(w, i, Commit) && w.procs[i].job.Allocate?
    ensures var v := Step(w, i, Commit);
            var from := w.procs[i].job.source;
            && Total(v.books) == Total(w.books)
            && from in v.books.accounts && v.books.accounts[from].balance + v.books.accounts[from].credit >= 0
  {
    var p := w.procs[i];
    ReadyAllocationIsAllowed(w, p);
    MoveKeepsTotal(w.books, p.job.source, p.job.to.key, p.job.yuan);
    MoveKeepsBalance(w.books, p.job.source, p.job.to.key, p.job.yuan);
    SufficientNeverOverdraws(Read(w.books, p.job.source), p.job.yuan);
  }

  /** In every interleaving, while anybody is unfinished, somebody can take a step of its own without any error. */
  lemma SomeoneCanAlwaysStep(steps: seq<(Id, Action)>, i: Id) returns (j: Id, a: Action)
    requires i in Run(steps).procs && !Run(steps).procs[i].stage.Finished?
    ensures j in Run(steps).procs && !Run(steps).procs[j].stage.Finished? && Enabled(Run(steps), j, a)
    ensures a.Look? || a.Take? || a.Commit? || a.Refuse? || a.Mark?
  {
    EveryRunKeepsInv(steps);
    j := SomeoneIsNotBlocked(Run(steps), i);
    assert ReadsStand(Run(steps), Run(steps).procs[j]);
    a := UnblockedCanStep(Run(steps), j);
  }

  // ---- charging sessions: the lookup is not made under a lock

  predicate LookupStands(ps: seq<Posting>, p: Proc) {
    p.job.ChargeSession? && p.stage.Running? ==> p.seen <= |ps| && !HasCharge(ps[..p.seen], p.job.session)
  }

  ghost predicate LookupsStand(w: World) {
    forall i :: i in w.procs ==> LookupStands(w.books.postings, w.procs[i])
  }

  lemma CommitAppends(b: Books, p: Proc)
    ensures |BooksAfter(b, p).postings| >= |b.postings| && BooksAfter(b, p).postings[..|b.postings|] == b.postings
  {
    if p.job.Allocate? {
      var mid := Posted(b, p.job.source, RowRead(p, p.job.source), AllocatedOut, -p.job.yuan, Some(p.job.to.key.owner));
      assert mid.postings[..|b.postings|] == b.postings;
    }
  }

  lemma StepKeepsLookups(w: World, i: Id, a: Action)
    requires LookupsStand(w)
    ensures LookupsStand(Step(w, i, a))
  {
    var v := Step(w, i, a);
    var ps, qs := w.books.postings, v.books.postings;
    assert |ps| <= |qs| && qs[..|ps|] == ps by {
      if Enabled(w, i, a) && a.Commit? {
        CommitAppends(w.books, w.procs[i]);
      }
    }
    forall j | j in v.procs && j in w.procs && LookupStands(ps, w.procs[j]) ensures LookupStands(qs, w.procs[j]) {
      if w.procs[j].seen <= |ps| {
        assert qs[..w.procs[j].seen] == ps[..w.procs[j].seen];
      }
    }
    if Enabled(w, i, a) && a.Look? {
      assert ps[..|ps|] == ps;
    }
  }

  lemma {:induction false} EveryRunKeepsLookups(steps: seq<(Id, Action)>)
    ensures LookupsStand(Run(steps))
  {
    if steps != [] {
      var last := steps[|steps| - 1];
      EveryRunKeepsLookups(steps[..|steps| - 1]);
      StepKeepsLookups(Run(steps[..|steps| - 1]), last.0, last.1);
    }
  }

  /** A commit pays a session a second time exactly when another charge for it was committed after
      this caller's lookup. */
  lemma SecondChargeIffLookupWentStale(w: World, i: Id)
    requires LookupsStand(w) && Enabled(w, i, Commit) && w.procs[i].job.ChargeSession? && w.procs[i].job.cost != 0
    ensures var p := w.procs[i];
            var ps := w.books.postings;
            CountOf(BooksAfter(w.books, p).postings, ChargeCost, p.job.session) >= 2 <==>
            exists n :: p.seen <= n < |ps| && ps[n].kind.ChargeCost? && ps[n].ref == Some(p.job.session)
  {
    var p, ps := w.procs[i], w.books.postings;
    var x := p.job.session;
    DebitAppends(w.books, Payer(p), RowRead(p, Payer(p)), ChargeCost, p.job.cost, x);
    CountAfter(ps, BooksAfter(w.books, p).postings[|ps|], ChargeCost, x);
    assert LookupStands(ps, p);
    forall m | 0 <= m < p.seen ensures !(ps[m].kind.ChargeCost? && ps[m].ref == Some(x)) {
      assert ps[m] == ps[..p.seen][m];
    }
    if n :| 0 <= n < |ps| && ps[n].kind.ChargeCost? && ps[n].ref == Some(x) {
      CountedIsThere(ps, x, n);
    } else {
      NothingToCount(ps, x);
    }
  }

  lemma {:induction false} CountedIsThere(ps: seq<Posting>, x: Id, n: nat)
    requires n < |ps| && ps[n].kind.ChargeCost? && ps[n].ref == Some(x)
    ensures CountOf(ps, ChargeCost, x) >= 1
  {
    if n < |ps| - 1 {
      CountedIsThere(ps[..|ps| - 1], x, n);
    }
  }

  lemma {:induction false} NothingToCount(ps: seq<Posting>, x: Id)
    requires !HasCharge(ps, x)
    ensures CountOf(ps, ChargeCost, x) == 0
  {
    if ps != [] {
      assert !(ps[|ps| - 1].kind.ChargeCost? && ps[|ps| - 1].ref == Some(x));
      assert forall n :: 0 <= n < |ps| - 1 ==> ps[..|ps| - 1][n] == ps[n];
      NothingToCount(ps[..|ps| - 1], x);
    }
  }

  // Two callers that look at the same session before either has paid.
  function BothCharge(x: Id, cost: nat): seq<(Id, Action)> {
    var job := ChargeSession(x, TENANT, cost);
    [(0, Begin(job)), (1, Begin(job)), (0, Look), (1, Look), (0, Take), (0, Commit), (1, Take), (1, Commit)]
  }

  lemma BothHaveLooked(x: Id, cost: nat)
    ensures var p := Proc(ChargeSession(x, TENANT, cost), Running(0), false, map[], false, 0);
            Run(BothCharge(x, cost)[..4]) == World(Books(map[], []), map[], map[0 := p, 1 := p])
  {
    var steps, job := BothCharge(x, cost), ChargeSession(x, TENANT, cost);
    var p := Proc(job, Reading, false, map[], false, 0);
    BothHaveBegun(steps, job);
    assert steps[..4][..3] == steps[..3] && steps[..3][..2] == steps[..2];
    var w := World(Books(map[], []), map[], map[0 := p, 1 := p]);
    assert Run(steps[..3]) == Step(w, 0, Look);
    assert Run(steps[..4]) == Step(Run(steps[..3]), 1, Look);
  }

  lemma BothHaveBegun(steps: seq<(Id, Action)>, job: Job)
    requires |steps| >= 2 && steps[0] == (0, Begin(job)) && steps[1] == (1, Begin(job)) && !job.BillTrip?
    ensures var p := Proc(job, Reading, false, map[], false, 0);
            Run(steps[..2]) == World(Books(map[], []), map[], map[0 := p, 1 := p])
  {
    assert steps[..2][..1] == steps[..1] && steps[..1][..0] == steps[..0] && Run(steps[..0]) == NOBODY;
    assert Run(steps[..1]) == Step(NOBODY, 0, Begin(job));
    assert Run(steps[..2]) == Step(Run(steps[..1]), 1, Begin(job));
  }

  lemma FirstHasPaid(x: Id, cost: nat)
    requires cost != 0
    ensures var p := Proc(ChargeSession(x, TENANT, cost), Running(0), false, map[], false, 0);
            var w := Run(BothCharge(x, cost)[..6]);
            && w.procs.Keys == {0, 1} && w.procs[1] == p && w.procs[0].stage.Finished?
            && w.books.postings == [Posting(TENANT, ChargeCost, -(cost as int), -(cost as int), Some(x))]
  {
    var steps := BothCharge(x, cost);
    var p := Proc(ChargeSession(x, TENANT, cost), Running(0), false, map[], false, 0);
    BothHaveLooked(x, cost);
    RunLastTwo(steps[..6]);
    assert steps[..6][..4] == steps[..4];
    FirstPays(World(Books(map[], []), map[], map[0 := p, 1 := p]), x, cost);
  }

  lemma FirstPays(w: World, x: Id, cost: nat)
    requires cost != 0
    requires var p := Proc(ChargeSession(x, TENANT, cost), Running(0), false, map[], false, 0);
             w == World(Books(map[], []), map[], map[0 := p, 1 := p])
    ensures var v := Step(Step(w, 0, Take), 0, Commit);
            && v.procs.Keys == {0, 1} && v.procs[1] == w.procs[1] && v.procs[0].stage.Finished?
            && v.books.postings == [Posting(TENANT, ChargeCost, -(cost as int), -(cost as int), Some(x))]
  {
    var p := Taken(w, w.procs[0]);
    var u := w.(procs := w.procs[0 := p]);
    assert Step(w, 0, Take) == u by {
      assert Wanted(w.procs[0]) == Some(AccountRow(TENANT));
      assert IsFree(w, AccountRow(TENANT));
    }
    assert Step(u, 0, Commit) == World(BooksAfter(u.books, p), TripsAfter(u.trips, p), u.procs[0 := p.(stage := Finished)]);
    DebitAppends(u.books, TENANT, RowRead(p, TENANT), ChargeCost, cost, x);
  }

  // A caller that looked before the posting was there pays all the same.
  lemma SecondPaysToo(w: World, x: Id, cost: nat, one: Posting)
    requires cost != 0 && w.procs.Keys == {0, 1} && w.procs[0].stage.Finished?
    requires w.procs[1] == Proc(ChargeSession(x, TENANT, cost), Running(0), false, map[], false, 0)
    requires w.books.postings == [one] && one.kind.ChargeCost? && one.ref == Some(x)
    ensures CountOf(Step(Step(w, 1, Take), 1, Commit).books.postings, ChargeCost, x) == 2
  {
    var p := Taken(w, w.procs[1]);
    var u := w.(procs := w.procs[1 := p]);
    assert Step(w, 1, Take) == u by {
      assert Wanted(w.procs[1]) == Some(AccountRow(TENANT));
      assert IsFree(w, AccountRow(TENANT));
    }
    assert Step(u, 1, Commit).books == BooksAfter(u.books, p);
    DebitAppends(u.books, TENANT, RowRead(p, TENANT), ChargeCost, cost, x);
    CountsTwo(one, BooksAfter(u.books, p).postings[1], x);
  }

  lemma CountsTwo(a: Posting, b: Posting, x: Id)
    requires a.kind.ChargeCost? && a.ref == Some(x) && b.kind.ChargeCost? && b.ref == Some(x)
    ensures CountOf([a] + [b], ChargeCost, x) == 2
  {
    var none: seq<Posting> := [];
    CountAfter(none, a, ChargeCost, x);
    assert none + [a] == [a];
    CountAfter([a], b, ChargeCost, x);
  }

  /** Such a run exists: one session, two debits. */
  lemma SessionCanBeChargedTwice(x: Id, cost: nat)
    requires cost != 0
    ensures CountOf(Run(BothCharge(x, cost)).books.postings, ChargeCost, x) == 2
  {
    FirstHasPaid(x, cost);
    var steps := BothCharge(x, cost);
    var w := Run(steps[..6]);
    SecondPaysToo(w, x, cost, w.books.postings[0]);
    RunLastTwo(steps);
  }

  lemma RunLastTwo(steps: seq<(Id, Action)>)
    requires |steps| >= 2
    ensures var n := |steps|;
            Run(steps) == Step(Step(Run(steps[..n - 2]), steps[n - 2].0, steps[n - 2].1), steps[n - 1].0, steps[n - 1].1)
  {
    assert steps[..|steps| - 1][..|steps| - 2] == steps[..|steps| - 2];
  }

  // ---- one caller alone, statement by statement

  class TripBiller {
    const book: AccountBook
    var trips: map<Id, Bill>

    constructor (accounts: AccountBook)
      ensures book == accounts && trips == map[]
    {
      book, trips := accounts, map[];
    }

    ghost function State(): World
      reads this, book
    {
      World(book.State(), trips, map[])
    }

    /** Debits and stamps the trip together, or, when the payer cannot be resolved, only marks it failed;
        a missing trip is an error that changes nothing. */
    method BillAlone(t: Id, payer: Key, cost: nat, resolvable: bool) returns (charged: bool)
      requires Balanced(book.State()) && BilledOnce(State())
      modifies this, book
      ensures Balanced(book.State()) && BilledOnce(State())
      ensures charged <==> t in old(trips) && (old(trips)[t].status.Charged? || resolvable)
      ensures t !in old(trips) || old(trips)[t].status.Charged? ==> State() == old(State())
      ensures t in old(trips) && !charged ==>
        book.State() == old(book.State()) && trips == old(trips)[t := Bill(Failed, old(trips)[t].cost)]
      ensures t in old(trips) && !old(trips)[t].status.Charged? && resolvable ==>
        && trips == old(trips)[t := Bill(Charged, cost)]
        && Read(book.State(), payer).balance == Read(old(book.State()), payer).balance - cost
        && CountOf(book.postings, TripCost, t) == if cost == 0 then 0 else 1
    {
      if t !in trips {
        return false;
      }
      if trips[t].status == Charged {
        return true;
      }
      if !resolvable {
        trips := Marked(trips, t);
        assert forall u :: Paid(trips, u) == Paid(old(trips), u);
        return false;
      }
      ghost var p := Proc(BillTrip(t, payer, cost), Running(2), false, map[payer := Read(book.State(), payer)], false, 0);
      BillCommitKeepsBilledOnce(State(), p);
      WholeCentsStay(-(cost as int));
      assert -Yuan(cost) == Yuan(-(cost as int));
      var after := book.Debit(payer, TripCost, -Yuan(cost), Some(t));
      trips := trips[t := Bill(Charged, cost)];
      assert State() == World(BooksAfter(old(book.State()), p), TripsAfter(old(trips), p), map[]);
      assert CountOf(book.postings, TripCost, t) == if Paid(trips, t) then 1 else 0;
      return true;
    }
  }
}
