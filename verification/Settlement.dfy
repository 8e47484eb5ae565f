/** One month's settlement: a row for the enterprise and one for every department, each with its lines. Amounts in cents. */
module Settlement {
  import opened Basics
  import opened SettlementLines
  import opened StableSort

  /** A billed trip; the fine is the penalty part of its cost detail, if it has one. */
  datatype TripFact = TripFact(id: Id, dept: Option<Id>, endAt: int, cost: int, fine: Option<int>)
  datatype ChargeFact = ChargeFact(id: Id, dept: Option<Id>, endAt: int, cost: int)
  datatype Dept = Dept(id: Id, budget: int)

  function Fine(t: TripFact): int {
    if t.fine.None? || t.fine.value <= 0 then 0
    else if t.fine.value < t.cost then t.fine.value
    else t.cost
  }

  function TripLinesOf(t: TripFact): seq<Line> {
    var fine := Fine(t);
    [Line(TripLine, t.id, t.endAt, t.cost - fine)] + if fine > 0 then [Line(PenaltyLine, t.id, t.endAt, fine)] else []
  }

  function ChargeLineOf(c: ChargeFact): Line {
    Line(ChargeLine, c.id, c.endAt, c.cost)
  }

  // ---- what a row gathers

  /** The numbers a row adds up. */
  datatype Column = Trips | TripCost | Charges | ChargeCost | Penalty

  function TripShare(t: TripFact, c: Column): int {
    match c
    case Trips => 1
    case TripCost => t.cost - Fine(t)
    case Penalty => Fine(t)
    case _ => 0
  }

  function ChargeShare(f: ChargeFact, c: Column): int {
    match c
    case Charges => 1
    case ChargeCost => f.cost
    case _ => 0
  }

  /** Whose facts: everybody's, those of the given departments, or those of nobody among them. */
  datatype Who = Everyone | Among(ids: set<Id>) | Outside(ids: set<Id>)

  predicate Concerns(who: Who, dept: Option<Id>) {
    match who
    case Everyone => true
    case Among(ids) => dept.Some? && dept.value in ids
    case Outside(ids) => dept.None? || dept.value !in ids
  }

  function OfTrips(ts: seq<TripFact>, who: Who, c: Column): int {
    if ts == [] then 0
    else
      var t := ts[|ts| - 1];
      OfTrips(ts[..|ts| - 1], who, c) + if Concerns(who, t.dept) then TripShare(t, c) else 0
  }

  function OfCharges(cs: seq<ChargeFact>, who: Who, c: Column): int {
    if cs == [] then 0
    else
      var f := cs[|cs| - 1];
      OfCharges(cs[..|cs| - 1], who, c) + if Concerns(who, f.dept) then ChargeShare(f, c) else 0
  }

  function Gathered(ts: seq<TripFact>, cs: seq<ChargeFact>, who: Who, c: Column): int {
    OfTrips(ts, who, c) + OfCharges(cs, who, c)
  }

  function TripLines(ts: seq<TripFact>, who: Who): seq<Line> {
    if ts == [] then []
    else
      var t, ls := ts[|ts| - 1], TripLines(ts[..|ts| - 1], who);
      if Concerns(who, t.dept) then ls + TripLinesOf(t) else ls
  }

  function ChargeLines(cs: seq<ChargeFact>, who: Who): seq<Line> {
    if cs == [] then []
    else
      var c, ls := cs[|cs| - 1], ChargeLines(cs[..|cs| - 1], who);
      if Concerns(who, c.dept) then ls + [ChargeLineOf(c)] else ls
  }

  function LinesFor(ts: seq<TripFact>, cs: seq<ChargeFact>, who: Who): seq<Line> {
    TripLines(ts, who) + ChargeLines(cs, who)
  }

  datatype Row = Row(dept: Option<Id>, trips: int, tripCost: int, charges: int, chargeCost: int, penalty: int,
                     total: int, budget: int, lines: seq<Line>)

  function InColumn(r: Row, c: Column): int {
    match c
    case Trips => r.trips
    case TripCost => r.tripCost
    case Charges => r.charges
    case ChargeCost => r.chargeCost
    case Penalty => r.penalty
  }

  /** What a draft holds so far. */
  datatype Sheet = Sheet(trips: int, tripCost: int, charges: int, chargeCost: int, penalty: int, lines: seq<Line>)

  const NOTHING: Sheet := Sheet(0, 0, 0, 0, 0, [])

  function WithTrip(s: Sheet, t: TripFact): Sheet {
    Sheet(s.trips + 1, s.tripCost + (t.cost - Fine(t)), s.charges, s.chargeCost, s.penalty + Fine(t), s.lines + TripLinesOf(t))
  }

  function WithCharge(s: Sheet, f: ChargeFact): Sheet {
    Sheet(s.trips, s.tripCost, s.charges + 1, s.chargeCost + f.cost, s.penalty, s.lines + [ChargeLineOf(f)])
  }

  /** All trips first and then all charges, one after the other. */
  function Folded(ts: seq<TripFact>, cs: seq<ChargeFact>, who: Who): Sheet
    decreases |ts| + |cs|
  {
    if cs != [] then
      var s, f := Folded(ts, cs[..|cs| - 1], who), cs[|cs| - 1];
      if Concerns(who, f.dept) then WithCharge(s, f) else s
    else if ts != [] then
      var s, t := Folded(ts[..|ts| - 1], [], who), ts[|ts| - 1];
      if Concerns(who, t.dept) then WithTrip(s, t) else s
    else NOTHING
  }

  function RowFrom(dept: Option<Id>, budget: int, s: Sheet): Row {
    Row(dept, s.trips, s.tripCost, s.charges, s.chargeCost, s.penalty,
        s.tripCost + s.chargeCost + s.penalty, budget, Sort(s.lines, LineTime))
  }

  /** A row as the program computes it; what its numbers and lines are is proved below. */
  function RowFor(dept: Option<Id>, budget: int, ts: seq<TripFact>, cs: seq<ChargeFact>, who: Who): Row {
    RowFrom(dept, budget, Folded(ts, cs, who))
  }

  function InSheet(s: Sheet, c: Column): int {
    match c
    case Trips => s.trips
    case TripCost => s.tripCost
    case Charges => s.charges
    case ChargeCost => s.chargeCost
    case Penalty => s.penalty
  }

  lemma {:induction false} FoldedTrips(ts: seq<TripFact>, who: Who, c: Column)
    ensures InSheet(Folded(ts, [], who), c) == OfTrips(ts, who, c)
    ensures Folded(ts, [], who).lines == TripLines(ts, who)
  {
    if ts != [] {
      FoldedTrips(ts[..|ts| - 1], who, c);
    }
  }

  lemma {:induction false} FoldedBoth(ts: seq<TripFact>, cs: seq<ChargeFact>, who: Who, c: Column)
    ensures InSheet(Folded(ts, cs, who), c) == Gathered(ts, cs, who, c)
    ensures Folded(ts, cs, who).lines == LinesFor(ts, cs, who)
  {
    if cs == [] {
      FoldedTrips(ts, who, c);
    } else {
      FoldedBoth(ts, cs[..|cs| - 1], who, c);
    }
  }

  /** Each number of a row is the sum over the facts it concerns. */
  lemma RowGathers(dept: Option<Id>, budget: int, ts: seq<TripFact>, cs: seq<ChargeFact>, who: Who, c: Column)
    ensures InColumn(RowFor(dept, budget, ts, cs, who), c) == Gathered(ts, cs, who, c)
  {
    FoldedBoth(ts, cs, who, c);
  }

  /** A row's lines are the sorted lines of the facts it concerns. */
  lemma RowLines(dept: Option<Id>, budget: int, ts: seq<TripFact>, cs: seq<ChargeFact>, who: Who)
    ensures RowFor(dept, budget, ts, cs, who).lines == Sort(LinesFor(ts, cs, who), LineTime)
  {
    FoldedBoth(ts, cs, who, Trips);
  }

  function Budgets(depts: seq<Dept>): int {
    if depts == [] then 0 else Budgets(depts[..|depts| - 1]) + depts[|depts| - 1].budget
  }

  predicate IsLast(depts: seq<Dept>, k: nat)
    requires k < |depts|
  {
    forall j :: k < j < |depts| ==> depts[j].id != depts[k].id
  }

  /** A department listed twice gathers its facts in its last row only. */
  function WhoAt(depts: seq<Dept>, k: nat): Who
    requires k < |depts|
  {
    Among(if IsLast(depts, k) then {depts[k].id} else {})
  }

  function EnterpriseRow(ts: seq<TripFact>, cs: seq<ChargeFact>, depts: seq<Dept>): Row {
    RowFor(None, Budgets(depts), ts, cs, Everyone)
  }

  function DepartmentRow(ts: seq<TripFact>, cs: seq<ChargeFact>, depts: seq<Dept>, k: nat): Row
    requires k < |depts|
  {
    RowFor(Some(depts[k].id), depts[k].budget, ts, cs, WhoAt(depts, k))
  }

  // ---- lines

  /** Exactly the facts of those concerned have their id among refs. */
  ghost predicate Separates(ts: seq<TripFact>, cs: seq<ChargeFact>, who: Who, refs: set<Id>) {
    && (forall t :: t in ts ==> (t.id in refs <==> Concerns(who, t.dept)))
    && (forall c :: c in cs ==> (c.id in refs <==> Concerns(who, c.dept)))
  }

  function OwnRefs(ts: seq<TripFact>, cs: seq<ChargeFact>, who: Who): set<Id> {
    (set t | t in ts && Concerns(who, t.dept) :: t.id) + (set c | c in cs && Concerns(who, c.dept) :: c.id)
  }

  ghost predicate IdsDiffer(ts: seq<TripFact>, cs: seq<ChargeFact>) {
    && (forall t, u :: t in ts && u in ts && t.id == u.id ==> t == u)
    && (forall c, d :: c in cs && d in cs && c.id == d.id ==> c == d)
    && (forall t, c :: t in ts && c in cs ==> t.id != c.id)
  }

  /** When no two facts share an id, the ids of the facts concerned tell them apart. */
  lemma OwnRefsSeparate(ts: seq<TripFact>, cs: seq<ChargeFact>, who: Who)
    requires IdsDiffer(ts, cs)
    ensures Separates(ts, cs, who, OwnRefs(ts, cs, who))
  {
  }

  lemma {:induction false} OnlyOfBoth(a: seq<Line>, b: seq<Line>, refs: set<Id>)
    ensures Only(a + b, refs) == Only(a, refs) + Only(b, refs)
  {
    if b == [] {
      assert a + b == a;
    } else {
      OnlyOfBoth(a, b[..|b| - 1], refs);
      assert (a + b)[..|a + b| - 1] == a + b[..|b| - 1];
    }
  }

  lemma {:induction false} TripLinesSelected(ts: seq<TripFact>, who: Who, refs: set<Id>)
    requires forall t :: t in ts ==> (t.id in refs <==> Concerns(who, t.dept))
    ensures Only(TripLines(ts, Everyone), refs) == TripLines(ts, who)
  {
    if ts != [] {
      var t := ts[|ts| - 1];
      TripLinesSelected(ts[..|ts| - 1], who, refs);
      OnlyOfBoth(TripLines(ts[..|ts| - 1], Everyone), TripLinesOf(t), refs);
      OnlyOfTrip(t, refs);
    }
  }

  lemma OnlyOfTrip(t: TripFact, refs: set<Id>)
    ensures Only(TripLinesOf(t), refs) == if t.id in refs then TripLinesOf(t) else []
  {
    var none: seq<Line> := [];
    var first := TripLinesOf(t)[0];
    KeepAppends(none, first, RefersTo(refs));
    assert none + [first] == [first];
    if Fine(t) > 0 {
      KeepAppends([first], TripLinesOf(t)[1], RefersTo(refs));
    }
  }

  lemma {:induction false} ChargeLinesSelected(cs: seq<ChargeFact>, who: Who, refs: set<Id>)
    requires forall c :: c in cs ==> (c.id in refs <==> Concerns(who, c.dept))
    ensures Only(ChargeLines(cs, Everyone), refs) == ChargeLines(cs, who)
  {
    if cs != [] {
      ChargeLinesSelected(cs[..|cs| - 1], who, refs);
      KeepAppends(ChargeLines(cs[..|cs| - 1], Everyone), ChargeLineOf(cs[|cs| - 1]), RefersTo(refs));
    }
  }

  /** A department's sorted lines are the enterprise's sorted lines, filtered to the department's facts. */
  lemma DepartmentLinesAreSelected(ts: seq<TripFact>, cs: seq<ChargeFact>, depts: seq<Dept>, k: nat, refs: set<Id>)
    requires k < |depts| && Separates(ts, cs, WhoAt(depts, k), refs)
    ensures DepartmentRow(ts, cs, depts, k).lines == Only(EnterpriseRow(ts, cs, depts).lines, refs)
  {
    var who := WhoAt(depts, k);
    RowLines(Some(depts[k].id), depts[k].budget, ts, cs, who);
    RowLines(None, Budgets(depts), ts, cs, Everyone);
    TripLinesSelected(ts, who, refs);
    ChargeLinesSelected(cs, who, refs);
    OnlyOfBoth(TripLines(ts, Everyone), ChargeLines(cs, Everyone), refs);
    SortCommutesWithKeep(LinesFor(ts, cs, Everyone), LineTime, RefersTo(refs));
  }

  /** A row's lines are its facts' lines, none lost and none added, in order of time, ties as they came. */
  lemma RowLinesAreSorted(dept: Option<Id>, budget: int, ts: seq<TripFact>, cs: seq<ChargeFact>, who: Who)
    ensures var lines := RowFor(dept, budget, ts, cs, who).lines;
            && multiset(lines) == multiset(LinesFor(ts, cs, who))
            && Ordered(lines, LineTime)
            && forall at :: At(lines, LineTime, at) == At(LinesFor(ts, cs, who), LineTime, at)
  {
    RowLines(dept, budget, ts, cs, who);
    SortOrders(LinesFor(ts, cs, who), LineTime);
    forall at ensures At(Sort(LinesFor(ts, cs, who), LineTime), LineTime, at) == At(LinesFor(ts, cs, who), LineTime, at) {
      SortIsStable(LinesFor(ts, cs, who), LineTime, at);
    }
  }

  lemma {:induction false} SortedTripsArePaired(ts: seq<TripFact>, who: Who)
    ensures Paired(Sort(TripLines(ts, who), LineTime))
  {
    if ts != [] {
      var t, before := ts[|ts| - 1], TripLines(ts[..|ts| - 1], who);
      SortedTripsArePaired(ts[..|ts| - 1], who);
      if Concerns(who, t.dept) {
        var ls := TripLinesOf(t);
        var one := before + [ls[0]];
        assert one[..|before|] == before;
        if Fine(t) > 0 {
          var two := before + ls;
          assert two == one + [ls[1]] && two[..|one|] == one;
          InsertPairKeepsPairs(Sort(before, LineTime), ls[0], ls[1]);
        } else {
          assert before + ls == one;
          InsertKeepsPairs(Sort(before, LineTime), ls[0]);
        }
      }
    }
  }

  lemma {:induction false} ChargesKeepPairs(a: seq<Line>, cs: seq<ChargeFact>, who: Who)
    requires Paired(Sort(a, LineTime))
    ensures Paired(Sort(a + ChargeLines(cs, who), LineTime))
  {
    if cs == [] {
      assert a + ChargeLines(cs, who) == a;
    } else {
      var c, before := cs[|cs| - 1], ChargeLines(cs[..|cs| - 1], who);
      ChargesKeepPairs(a, cs[..|cs| - 1], who);
      if Concerns(who, c.dept) {
        var all := a + ChargeLines(cs, who);
        assert all[..|all| - 1] == a + before;
        InsertKeepsPairs(Sort(a + before, LineTime), ChargeLineOf(c));
      }
    }
  }

  /** In every row each penalty line stands immediately after its own trip's line. */
  lemma PenaltiesFollowTheirTrips(dept: Option<Id>, budget: int, ts: seq<TripFact>, cs: seq<ChargeFact>, who: Who)
    ensures Paired(RowFor(dept, budget, ts, cs, who).lines)
  {
    RowLines(dept, budget, ts, cs, who);
    SortedTripsArePaired(ts, who);
    ChargesKeepPairs(TripLines(ts, who), cs, who);
  }

  // ---- money

  /** What is added up over lines. */
  datatype Weight = Amount | AmountOf(kind: Kind) | CountOf(kind: Kind)

  function Weigh(l: Line, w: Weight): int {
    match w
    case Amount => l.amount
    case AmountOf(k) => if l.kind == k then l.amount else 0
    case CountOf(k) => if l.kind == k then 1 else 0
  }

  function Total(s: seq<Line>, w: Weight): int {
    if s == [] then 0 else Total(s[..|s| - 1], w) + Weigh(s[|s| - 1], w)
  }

  lemma TotalAppends(s: seq<Line>, x: Line, w: Weight)
    ensures Total(s + [x], w) == Total(s, w) + Weigh(x, w)
  {
    assert (s + [x])[..|s|] == s;
  }

  lemma {:induction false} TotalOfBoth(a: seq<Line>, b: seq<Line>, w: Weight)
    ensures Total(a + b, w) == Total(a, w) + Total(b, w)
  {
    if b == [] {
      assert a + b == a;
    } else {
      TotalOfBoth(a, b[..|b| - 1], w);
      assert (a + b)[..|a + b| - 1] == a + b[..|b| - 1];
    }
  }

  lemma {:induction false} InsertKeepsTotal(s: seq<Line>, x: Line, w: Weight)
    ensures Total(Insert(s, x, LineTime), w) == Total(s, w) + Weigh(x, w)
  {
    if s == [] || s[|s| - 1].at <= x.at {
      TotalAppends(s, x, w);
    } else {
      InsertKeepsTotal(s[..|s| - 1], x, w);
      TotalAppends(Insert(s[..|s| - 1], x, LineTime), s[|s| - 1], w);
    }
  }

  lemma {:induction false} SortKeepsTotal(s: seq<Line>, w: Weight)
    ensures Total(Sort(s, LineTime), w) == Total(s, w)
  {
    if s != [] {
      SortKeepsTotal(s[..|s| - 1], w);
      InsertKeepsTotal(Sort(s[..|s| - 1], LineTime), s[|s| - 1], w);
    }
  }

  /** A trip whose whole negative cost is taken for its penalty: it has no penalty line. */
  predicate Unlined(t: TripFact) {
    t.cost < 0 && t.fine.Some? && t.fine.value > 0
  }

  /** The cost of the trips concerned that is on no line. */
  function UnlinedCost(ts: seq<TripFact>, who: Who): int {
    if ts == [] then 0
    else
      var t := ts[|ts| - 1];
      UnlinedCost(ts[..|ts| - 1], who) + if Concerns(who, t.dept) && Unlined(t) then t.cost else 0
  }

  lemma TripLinesWeigh(t: TripFact, w: Weight)
    ensures Total(TripLinesOf(t), w)
         == Weigh(TripLinesOf(t)[0], w) + if Fine(t) > 0 then Weigh(TripLinesOf(t)[1], w) else 0
  {
    var none: seq<Line> := [];
    var first := TripLinesOf(t)[0];
    TotalAppends(none, first, w);
    assert none + [first] == [first];
    if Fine(t) > 0 {
      TotalAppends([first], TripLinesOf(t)[1], w);
    }
  }

  // Trips put nothing in the charge columns, and the other way round.
  lemma {:induction false} TripsCostNoCharge(ts: seq<TripFact>, who: Who, c: Column)
    requires c.Charges? || c.ChargeCost?
    ensures OfTrips(ts, who, c) == 0
  {
    if ts != [] {
      TripsCostNoCharge(ts[..|ts| - 1], who, c);
    }
  }

  lemma {:induction false} ChargesCostNoTrip(cs: seq<ChargeFact>, who: Who, c: Column)
    requires c.Trips? || c.TripCost? || c.Penalty?
    ensures OfCharges(cs, who, c) == 0
  {
    if cs != [] {
      ChargesCostNoTrip(cs[..|cs| - 1], who, c);
    }
  }

  lemma TripAmount(t: TripFact)
    ensures Total(TripLinesOf(t), Amount) + (if Unlined(t) then t.cost else 0) == TripShare(t, TripCost) + TripShare(t, Penalty)
  {
    TripLinesWeigh(t, Amount);
  }

  lemma {:induction false} TripAmounts(ts: seq<TripFact>, who: Who)
    ensures Total(TripLines(ts, who), Amount) + UnlinedCost(ts, who) == OfTrips(ts, who, TripCost) + OfTrips(ts, who, Penalty)
  {
    if ts != [] {
      var rest, t := ts[..|ts| - 1], ts[|ts| - 1];
      TripAmounts(rest, who);
      TripAmount(t);
      TotalOfBoth(TripLines(rest, who), TripLinesOf(t), Amount);
    }
  }

  lemma {:induction false} ChargeAmounts(cs: seq<ChargeFact>, who: Who)
    ensures Total(ChargeLines(cs, who), Amount) == OfCharges(cs, who, ChargeCost)
  {
    if cs != [] {
      ChargeAmounts(cs[..|cs| - 1], who);
      TotalAppends(ChargeLines(cs[..|cs| - 1], who), ChargeLineOf(cs[|cs| - 1]), Amount);
    }
  }

  /** The total column of a row, from the two kinds of facts. */
  lemma RowTotal(dept: Option<Id>, budget: int, ts: seq<TripFact>, cs: seq<ChargeFact>, who: Who)
    ensures RowFor(dept, budget, ts, cs, who).total
         == OfTrips(ts, who, TripCost) + OfTrips(ts, who, Penalty) + OfCharges(cs, who, ChargeCost)
  {
    RowGathers(dept, budget, ts, cs, who, TripCost);
    RowGathers(dept, budget, ts, cs, who, ChargeCost);
    RowGathers(dept, budget, ts, cs, who, Penalty);
    TripsCostNoCharge(ts, who, ChargeCost);
    ChargesCostNoTrip(cs, who, TripCost);
    ChargesCostNoTrip(cs, who, Penalty);
  }

  /** A row's total exceeds the sum of its lines by exactly the cost that is on no line. */
  lemma TotalsDifferByUnlined(dept: Option<Id>, budget: int, ts: seq<TripFact>, cs: seq<ChargeFact>, who: Who)
    ensures var row := RowFor(dept, budget, ts, cs, who); row.total == Total(row.lines, Amount) + UnlinedCost(ts, who)
  {
    RowTotal(dept, budget, ts, cs, who);
    RowLines(dept, budget, ts, cs, who);
    TripAmounts(ts, who);
    ChargeAmounts(cs, who);
    TotalOfBoth(TripLines(ts, who), ChargeLines(cs, who), Amount);
    SortKeepsTotal(LinesFor(ts, cs, who), Amount);
  }

  lemma {:induction false} UnlinedIsNegative(ts: seq<TripFact>, who: Who)
    ensures UnlinedCost(ts, who) <= 0
    ensures UnlinedCost(ts, who) == 0 <==> forall t :: t in ts && Concerns(who, t.dept) ==> !Unlined(t)
  {
    if ts != [] {
      var rest, t := ts[..|ts| - 1], ts[|ts| - 1];
      UnlinedIsNegative(rest, who);
      assert ts == rest + [t];
      assert forall u :: u in ts <==> u in rest || u == t;
    }
  }

  /** A row's total is the sum of its line amounts exactly when no trip it gathers has a negative cost and a
      penalty; with non-negative costs, always. */
  lemma TotalIsLineSumIff(dept: Option<Id>, budget: int, ts: seq<TripFact>, cs: seq<ChargeFact>, who: Who)
    ensures var row := RowFor(dept, budget, ts, cs, who);
            && (row.total == Total(row.lines, Amount) <==> forall t :: t in ts && Concerns(who, t.dept) ==> !Unlined(t))
            && ((forall t :: t in ts ==> t.cost >= 0) ==> row.total == Total(row.lines, Amount))
  {
    TotalsDifferByUnlined(dept, budget, ts, cs, who);
    UnlinedIsNegative(ts, who);
  }

  /** A remark on the aggregation by itself, since no trip is priced below zero: given such a trip, its cost
      would be in the total and on no line. */
  lemma NegativeCostLosesItsLine(id: Id, at: int)
    ensures var row := RowFor(None, 0, [TripFact(id, None, at, -200, Some(50))], [], Everyone);
            row.total == -200 && Total(row.lines, Amount) == 0
  {
    var ts := [TripFact(id, None, at, -200, Some(50))];
    TotalsDifferByUnlined(None, 0, ts, [], Everyone);
    assert ts[..0] == [];
    assert UnlinedCost(ts, Everyone) == -200;
    assert Folded(ts, [], Everyone) == WithTrip(Folded([], [], Everyone), ts[0]);
  }

  /** The column whose number the lines of a kind account for. */
  function ColumnOf(w: Weight): Option<Column> {
    match w
    case AmountOf(TripLine) => Some(TripCost)
    case AmountOf(ChargeLine) => Some(ChargeCost)
    case CountOf(TripLine) => Some(Trips)
    case CountOf(ChargeLine) => Some(Charges)
    case _ => None
  }

  lemma TripShareWeighs(t: TripFact, w: Weight, c: Column)
    requires ColumnOf(w) == Some(c)
    ensures Total(TripLinesOf(t), w) == TripShare(t, c)
  {
    TripLinesWeigh(t, w);
  }

  lemma {:induction false} TripColumnsMatch(ts: seq<TripFact>, who: Who, w: Weight, c: Column)
    requires ColumnOf(w) == Some(c)
    ensures Total(TripLines(ts, who), w) == OfTrips(ts, who, c)
  {
    if ts != [] {
      var rest, t := ts[..|ts| - 1], ts[|ts| - 1];
      TripColumnsMatch(rest, who, w, c);
      TripShareWeighs(t, w, c);
      TotalOfBoth(TripLines(rest, who), TripLinesOf(t), w);
    }
  }

  lemma ChargeShareWeighs(f: ChargeFact, w: Weight, c: Column)
    requires ColumnOf(w) == Some(c)
    ensures Weigh(ChargeLineOf(f), w) == ChargeShare(f, c)
  {
  }

  lemma {:induction false} ChargeColumnsMatch(cs: seq<ChargeFact>, who: Who, w: Weight, c: Column)
    requires ColumnOf(w) == Some(c)
    ensures Total(ChargeLines(cs, who), w) == OfCharges(cs, who, c)
  {
    if cs != [] {
      var rest, f := cs[..|cs| - 1], cs[|cs| - 1];
      ChargeColumnsMatch(rest, who, w, c);
      ChargeShareWeighs(f, w, c);
      TotalAppends(ChargeLines(rest, who), ChargeLineOf(f), w);
    }
  }

  lemma GatheredMatchesLines(ts: seq<TripFact>, cs: seq<ChargeFact>, who: Who, w: Weight)
    requires ColumnOf(w).Some?
    ensures Gathered(ts, cs, who, ColumnOf(w).value) == Total(Sort(LinesFor(ts, cs, who), LineTime), w)
  {
    TripColumnsMatch(ts, who, w, ColumnOf(w).value);
    ChargeColumnsMatch(cs, who, w, ColumnOf(w).value);
    TotalOfBoth(TripLines(ts, who), ChargeLines(cs, who), w);
    SortKeepsTotal(LinesFor(ts, cs, who), w);
  }

  /** Trip cost and charge cost are the sums of the lines of their kind, and the two counts are their numbers. */
  lemma ColumnsMatchLines(dept: Option<Id>, budget: int, ts: seq<TripFact>, cs: seq<ChargeFact>, who: Who, w: Weight)
    requires ColumnOf(w).Some?
    ensures var row := RowFor(dept, budget, ts, cs, who); InColumn(row, ColumnOf(w).value) == Total(row.lines, w)
  {
    RowGathers(dept, budget, ts, cs, who, ColumnOf(w).value);
    RowLines(dept, budget, ts, cs, who);
    GatheredMatchesLines(ts, cs, who, w);
  }

  function TripCosts(ts: seq<TripFact>): int {
    if ts == [] then 0 else TripCosts(ts[..|ts| - 1]) + ts[|ts| - 1].cost
  }

  function ChargeCosts(cs: seq<ChargeFact>): int {
    if cs == [] then 0 else ChargeCosts(cs[..|cs| - 1]) + cs[|cs| - 1].cost
  }

  lemma {:induction false} TripsCost(ts: seq<TripFact>)
    ensures OfTrips(ts, Everyone, TripCost) + OfTrips(ts, Everyone, Penalty) == TripCosts(ts)
  {
    if ts != [] {
      TripsCost(ts[..|ts| - 1]);
    }
  }

  lemma {:induction false} ChargesCost(cs: seq<ChargeFact>)
    ensures OfCharges(cs, Everyone, ChargeCost) == ChargeCosts(cs)
  {
    if cs != [] {
      ChargesCost(cs[..|cs| - 1]);
    }
  }

  /** The enterprise total is the sum of all the facts' costs, whatever part of them is penalty. */
  lemma EnterpriseTotalIsAllCosts(ts: seq<TripFact>, cs: seq<ChargeFact>, depts: seq<Dept>)
    ensures EnterpriseRow(ts, cs, depts).total == TripCosts(ts) + ChargeCosts(cs)
  {
    RowTotal(None, Budgets(depts), ts, cs, Everyone);
    TripsCost(ts);
    ChargesCost(cs);
  }

  // ---- columns of the departments and of the enterprise

  function DepartmentSum(ts: seq<TripFact>, cs: seq<ChargeFact>, depts: seq<Dept>, n: nat, c: Column): int
    requires n <= |depts|
  {
    if n == 0 then 0
    else DepartmentSum(ts, cs, depts, n - 1, c) + InColumn(DepartmentRow(ts, cs, depts, n - 1), c)
  }

  lemma {:induction false} OneMoreTrips(ts: seq<TripFact>, ids: set<Id>, d: Id, c: Column)
    requires d !in ids
    ensures OfTrips(ts, Among(ids + {d}), c) == OfTrips(ts, Among(ids), c) + OfTrips(ts, Among({d}), c)
  {
    if ts != [] {
      OneMoreTrips(ts[..|ts| - 1], ids, d, c);
    }
  }

  lemma {:induction false} OneMoreCharges(cs: seq<ChargeFact>, ids: set<Id>, d: Id, c: Column)
    requires d !in ids
    ensures OfCharges(cs, Among(ids + {d}), c) == OfCharges(cs, Among(ids), c) + OfCharges(cs, Among({d}), c)
  {
    if cs != [] {
      OneMoreCharges(cs[..|cs| - 1], ids, d, c);
    }
  }

  lemma {:induction false} TripsInAndOut(ts: seq<TripFact>, ids: set<Id>, c: Column)
    ensures OfTrips(ts, Everyone, c) == OfTrips(ts, Among(ids), c) + OfTrips(ts, Outside(ids), c)
  {
    if ts != [] {
      TripsInAndOut(ts[..|ts| - 1], ids, c);
    }
  }

  lemma {:induction false} ChargesInAndOut(cs: seq<ChargeFact>, ids: set<Id>, c: Column)
    ensures OfCharges(cs, Everyone, c) == OfCharges(cs, Among(ids), c) + OfCharges(cs, Outside(ids), c)
  {
    if cs != [] {
      ChargesInAndOut(cs[..|cs| - 1], ids, c);
    }
  }

  lemma {:induction false} NobodysTrips(ts: seq<TripFact>, c: Column)
    ensures OfTrips(ts, Among({}), c) == 0
  {
    if ts != [] {
      NobodysTrips(ts[..|ts| - 1], c);
    }
  }

  lemma {:induction false} NobodysCharges(cs: seq<ChargeFact>, c: Column)
    ensures OfCharges(cs, Among({}), c) == 0
  {
    if cs != [] {
      NobodysCharges(cs[..|cs| - 1], c);
    }
  }

  function Ids(depts: seq<Dept>): set<Id> {
    set k | 0 <= k < |depts| :: depts[k].id
  }

  // Those whose last row is among the first n.
  function LastIds(depts: seq<Dept>, n: nat): set<Id>
    requires n <= |depts|
  {
    set k | 0 <= k < n && IsLast(depts, k) :: depts[k].id
  }

  lemma {:induction false} DepartmentsAddUp(ts: seq<TripFact>, cs: seq<ChargeFact>, depts: seq<Dept>, n: nat, c: Column)
    requires n <= |depts|
    ensures DepartmentSum(ts, cs, depts, n, c) == Gathered(ts, cs, Among(LastIds(depts, n)), c)
  {
    if n == 0 {
      assert LastIds(depts, 0) == {};
      NobodysFacts(ts, cs, c);
    } else {
      DepartmentsAddUp(ts, cs, depts, n - 1, c);
      OneLastMore(depts, n);
      RowGathers(Some(depts[n - 1].id), depts[n - 1].budget, ts, cs, WhoAt(depts, n - 1), c);
      OneRowMore(ts, cs, LastIds(depts, n - 1), depts[n - 1].id, IsLast(depts, n - 1), c);
    }
  }

  lemma NobodysFacts(ts: seq<TripFact>, cs: seq<ChargeFact>, c: Column)
    ensures Gathered(ts, cs, Among({}), c) == 0
  {
    NobodysTrips(ts, c);
    NobodysCharges(cs, c);
  }

  lemma OneRowMore(ts: seq<TripFact>, cs: seq<ChargeFact>, ids: set<Id>, d: Id, last: bool, c: Column)
    requires last ==> d !in ids
    ensures Gathered(ts, cs, Among(if last then ids + {d} else ids), c)
         == Gathered(ts, cs, Among(ids), c) + Gathered(ts, cs, Among(if last then {d} else {}), c)
  {
    if last {
      OneMoreTrips(ts, ids, d, c);
      OneMoreCharges(cs, ids, d, c);
    } else {
      NobodysFacts(ts, cs, c);
    }
  }

  lemma OneLastMore(depts: seq<Dept>, n: nat)
    requires 0 < n <= |depts|
    ensures LastIds(depts, n) == if IsLast(depts, n - 1) then LastIds(depts, n - 1) + {depts[n - 1].id} else LastIds(depts, n - 1)
    ensures IsLast(depts, n - 1) ==> depts[n - 1].id !in LastIds(depts, n - 1)
  {
  }

  /** Each enterprise column is the sum of the departments' plus the facts that belong to no listed department. */
  lemma EnterpriseColumnsAddUp(ts: seq<TripFact>, cs: seq<ChargeFact>, depts: seq<Dept>, c: Column)
    ensures InColumn(EnterpriseRow(ts, cs, depts), c)
         == DepartmentSum(ts, cs, depts, |depts|, c) + Gathered(ts, cs, Outside(Ids(depts)), c)
  {
    RowGathers(None, Budgets(depts), ts, cs, Everyone, c);
    DepartmentsAddUp(ts, cs, depts, |depts|, c);
    EveryIdHasALastRow(depts);
    TripsInAndOut(ts, Ids(depts), c);
    ChargesInAndOut(cs, Ids(depts), c);
  }

  lemma EveryIdHasALastRow(depts: seq<Dept>)
    ensures LastIds(depts, |depts|) == Ids(depts)
  {
    forall d | d in Ids(depts) ensures d in LastIds(depts, |depts|) {
      var k: nat :| k < |depts| && depts[k].id == d;
      var j := LastRow(depts, k);
    }
  }

  lemma {:induction false} LastRow(depts: seq<Dept>, k: nat) returns (j: nat)
    requires k < |depts|
    ensures k <= j < |depts| && depts[j].id == depts[k].id && IsLast(depts, j)
    decreases |depts| - k
  {
    if IsLast(depts, k) {
      j := k;
    } else {
      var m: nat :| k < m < |depts| && depts[m].id == depts[k].id;
      j := LastRow(depts, m);
    }
  }

  // ---- the fold itself: drafts updated in place

  class Draft {
    const dept: Option<Id>
    var trips: int
    var tripCost: int
    var charges: int
    var chargeCost: int
    var penalty: int
    var budget: int
    var lines: seq<Line>

    constructor (d: Option<Id>, b: int)
      ensures dept == d && budget == b && State() == NOTHING
    {
      dept, budget := d, b;
      trips, tripCost, charges, chargeCost, penalty, lines := 0, 0, 0, 0, 0, [];
    }

    function State(): Sheet
      reads this
    {
      Sheet(trips, tripCost, charges, chargeCost, penalty, lines)
    }

    method Apply(more: seq<Line>, tripN: int, chargeN: int, trip: int, charge: int, fine: int)
      modifies `lines, `trips, `charges, `tripCost, `chargeCost, `penalty
      ensures lines == old(lines) + more && trips == old(trips) + tripN && charges == old(charges) + chargeN
      ensures tripCost == old(tripCost) + trip && chargeCost == old(chargeCost) + charge && penalty == old(penalty) + fine
    {
      lines := lines + more;
      trips := trips + tripN;
      charges := charges + chargeN;
      tripCost := tripCost + trip;
      chargeCost := chargeCost + charge;
      penalty := penalty + fine;
    }

    method GatherTrip(t: TripFact)
      modifies `lines, `trips, `charges, `tripCost, `chargeCost, `penalty
      ensures State() == WithTrip(old(State()), t)
    {
      var fine := Fine(t);
      Apply(TripLinesOf(t), 1, 0, t.cost - fine, 0, fine);
    }

    method GatherCharge(f: ChargeFact)
      modifies `lines, `trips, `charges, `tripCost, `chargeCost, `penalty
      ensures State() == WithCharge(old(State()), f)
    {
      var line := ChargeLineOf(f);
      Apply([line], 0, 1, 0, line.amount, 0);
    }

    method Finish() returns (row: Row)
      ensures row == RowFrom(dept, budget, State())
    {
      row := Row(dept, trips, tripCost, charges, chargeCost, penalty, tripCost + chargeCost + penalty, budget, Sort(lines, LineTime));
    }
  }

  /** One draft per listed department, each its own object, and the map leads to the last one of an id. */
  ghost predicate Wired(depts: seq<Dept>, order: seq<Draft>, byDept: map<Id, Draft>, ent: Draft) {
    && |order| == |depts| && ent !in order
    && (forall j, k :: 0 <= j < k < |order| ==> order[j] != order[k])
    && (forall d :: d in byDept ==> exists k :: 0 <= k < |order| && Leads(depts, order, byDept, d, k))
    && (forall k :: 0 <= k < |depts| ==> depts[k].id in byDept)
  }

  ghost predicate Leads(depts: seq<Dept>, order: seq<Draft>, byDept: map<Id, Draft>, d: Id, k: nat)
    requires d in byDept && k < |order| == |depts|
  {
    byDept[d] == order[k] && depts[k].id == d && IsLast(depts, k)
  }

  ghost predicate AllHold(depts: seq<Dept>, order: seq<Draft>, ent: Draft, ts: seq<TripFact>, cs: seq<ChargeFact>)
    requires |order| == |depts|
    reads ent, order
  {
    && ent.State() == Folded(ts, cs, Everyone)
    && forall k :: 0 <= k < |order| ==> order[k].State() == Folded(ts, cs, WhoAt(depts, k))
  }

  predicate BudgetsStand(depts: seq<Dept>, order: seq<Draft>, ent: Draft)
    requires |order| == |depts|
    reads ent, order
  {
    && ent.dept == None && ent.budget == Budgets(depts)
    && forall k :: 0 <= k < |order| ==> order[k].dept == Some(depts[k].id) && order[k].budget == depts[k].budget
  }

  // Exactly the draft the map leads to is concerned.
  lemma OnlyOneIsConcerned(depts: seq<Dept>, order: seq<Draft>, byDept: map<Id, Draft>, ent: Draft, dept: Option<Id>)
    requires Wired(depts, order, byDept, ent)
    ensures forall k :: 0 <= k < |order| ==>
      (Concerns(WhoAt(depts, k), dept) <==> dept.Some? && dept.value in byDept && byDept[dept.value] == order[k])
  {
    forall k | 0 <= k < |order|
      ensures Concerns(WhoAt(depts, k), dept) <==> dept.Some? && dept.value in byDept && byDept[dept.value] == order[k]
    {
      if dept.Some? && dept.value in byDept {
        var j :| 0 <= j < |order| && Leads(depts, order, byDept, dept.value, j);
      }
    }
  }

  lemma OneMoreTrip(ts: seq<TripFact>, t: TripFact, who: Who)
    ensures Folded(ts + [t], [], who) == if Concerns(who, t.dept) then WithTrip(Folded(ts, [], who), t) else Folded(ts, [], who)
  {
    assert (ts + [t])[..|ts|] == ts;
  }

  lemma OneMoreCharge(ts: seq<TripFact>, cs: seq<ChargeFact>, f: ChargeFact, who: Who)
    ensures Folded(ts, cs + [f], who) == if Concerns(who, f.dept) then WithCharge(Folded(ts, cs, who), f) else Folded(ts, cs, who)
  {
    assert (cs + [f])[..|cs|] == cs;
  }

  method AddTrip(depts: seq<Dept>, order: seq<Draft>, byDept: map<Id, Draft>, ent: Draft,
                 ghost ts: seq<TripFact>, t: TripFact, ghost after: seq<TripFact>)
    requires Wired(depts, order, byDept, ent) && AllHold(depts, order, ent, ts, []) && after == ts + [t]
    modifies ent, order
    ensures AllHold(depts, order, ent, after, [])
    ensures ent.budget == old(ent.budget) && forall k :: 0 <= k < |order| ==> order[k].budget == old(order[k].budget)
  {
    OnlyOneIsConcerned(depts, order, byDept, ent, t.dept);
    OneMoreTrip(ts, t, Everyone);
    forall k | 0 <= k < |order| {
      OneMoreTrip(ts, t, WhoAt(depts, k));
    }
    ent.GatherTrip(t);
    if t.dept.Some? && t.dept.value in byDept {
      byDept[t.dept.value].GatherTrip(t);
    }
  }

  method AddCharge(depts: seq<Dept>, order: seq<Draft>, byDept: map<Id, Draft>, ent: Draft,
                   ghost ts: seq<TripFact>, ghost cs: seq<ChargeFact>, f: ChargeFact, ghost after: seq<ChargeFact>)
    requires Wired(depts, order, byDept, ent) && AllHold(depts, order, ent, ts, cs) && after == cs + [f]
    modifies ent, order
    ensures AllHold(depts, order, ent, ts, after)
    ensures ent.budget == old(ent.budget) && forall k :: 0 <= k < |order| ==> order[k].budget == old(order[k].budget)
  {
    OnlyOneIsConcerned(depts, order, byDept, ent, f.dept);
    OneMoreCharge(ts, cs, f, Everyone);
    forall k | 0 <= k < |order| {
      OneMoreCharge(ts, cs, f, WhoAt(depts, k));
    }
    ent.GatherCharge(f);
    if f.dept.Some? && f.dept.value in byDept {
      byDept[f.dept.value].GatherCharge(f);
    }
  }

  lemma MapLeadsOn(depts: seq<Dept>, i: nat, order: seq<Draft>, byDept: map<Id, Draft>, ent: Draft, draft: Draft)
    requires i < |depts| && Wired(depts[..i], order, byDept, ent) && draft !in order && draft != ent
    ensures Wired(depts[..i + 1], order + [draft], byDept[depts[i].id := draft], ent)
  {
    var ds, after, drafts := depts[..i + 1], byDept[depts[i].id := draft], order + [draft];
    forall d | d in after ensures exists k :: 0 <= k < |drafts| && Leads(ds, drafts, after, d, k) {
      if d == depts[i].id {
        assert Leads(ds, drafts, after, d, i);
      } else {
        var k :| 0 <= k < |order| && Leads(depts[..i], order, byDept, d, k);
        assert Leads(ds, drafts, after, d, k);
      }
    }
  }

  /** Nothing gathered yet. */
  ghost predicate NothingGathered(order: seq<Draft>, ent: Draft)
    reads ent, order
  {
    ent.State() == NOTHING && forall k :: 0 <= k < |order| ==> order[k].State() == NOTHING
  }

  lemma OneMoreBudget(depts: seq<Dept>, i: nat)
    requires i < |depts|
    ensures Budgets(depts[..i + 1]) == Budgets(depts[..i]) + depts[i].budget
  {
    assert depts[..i + 1][..i] == depts[..i];
  }

  method OpenDraft(depts: seq<Dept>, i: nat, order: seq<Draft>, ent: Draft) returns (draft: Draft)
    requires i < |depts| && |order| == i && ent !in order
    requires BudgetsStand(depts[..i], order, ent) && NothingGathered(order, ent)
    modifies ent`budget
    ensures fresh(draft) && BudgetsStand(depts[..i + 1], order + [draft], ent) && NothingGathered(order + [draft], ent)
  {
    var d := depts[i];
    draft := new Draft(Some(d.id), d.budget);
    OneMoreBudget(depts, i);
    ent.budget := ent.budget + d.budget;
  }

  method OpenDrafts(depts: seq<Dept>) returns (ent: Draft, order: seq<Draft>, byDept: map<Id, Draft>)
    ensures Wired(depts[..|depts|], order, byDept, ent)
    ensures BudgetsStand(depts[..|depts|], order, ent) && NothingGathered(order, ent)
    ensures fresh(ent) && fresh(order)
  {
    ent := new Draft(None, 0);
    order, byDept := [], map[];
    for i := 0 to |depts|
      invariant fresh(ent) && fresh(order)
      invariant Wired(depts[..i], order, byDept, ent)
      invariant BudgetsStand(depts[..i], order, ent) && NothingGathered(order, ent)
    {
      var draft := OpenDraft(depts, i, order, ent);
      MapLeadsOn(depts, i, order, byDept, ent, draft);
      byDept := byDept[depts[i].id := draft];
      order := order + [draft];
    }
  }

  method GatherTrips(ts: seq<TripFact>, depts: seq<Dept>, order: seq<Draft>, byDept: map<Id, Draft>, ent: Draft)
    requires Wired(depts, order, byDept, ent) && AllHold(depts, order, ent, ts[..0], []) && BudgetsStand(depts, order, ent)
    modifies ent, order
    ensures AllHold(depts, order, ent, ts[..|ts|], []) && BudgetsStand(depts, order, ent)
  {
    for i := 0 to |ts|
      invariant AllHold(depts, order, ent, ts[..i], [])
      invariant BudgetsStand(depts, order, ent)
    {
      AddTrip(depts, order, byDept, ent, ts[..i], ts[i], ts[..i + 1]);
    }
  }

  method GatherCharges(ghost ts: seq<TripFact>, cs: seq<ChargeFact>, depts: seq<Dept>,
                       order: seq<Draft>, byDept: map<Id, Draft>, ent: Draft)
    requires Wired(depts, order, byDept, ent) && AllHold(depts, order, ent, ts, cs[..0]) && BudgetsStand(depts, order, ent)
    modifies ent, order
    ensures AllHold(depts, order, ent, ts, cs[..|cs|]) && BudgetsStand(depts, order, ent)
  {
    for i := 0 to |cs|
      invariant AllHold(depts, order, ent, ts, cs[..i])
      invariant BudgetsStand(depts, order, ent)
    {
      AddCharge(depts, order, byDept, ent, ts, cs[..i], cs[i], cs[..i + 1]);
    }
  }

  lemma FinishedIsRow(d: Draft, ts: seq<TripFact>, cs: seq<ChargeFact>, who: Who)
    requires d.State() == Folded(ts, cs, who)
    ensures RowFrom(d.dept, d.budget, d.State()) == RowFor(d.dept, d.budget, ts, cs, who)
  {
  }

  method FinishAll(ghost ts: seq<TripFact>, ghost cs: seq<ChargeFact>, depts: seq<Dept>, order: seq<Draft>, ent: Draft)
    returns (rows: seq<Row>)
    requires |order| == |depts| && AllHold(depts, order, ent, ts, cs) && BudgetsStand(depts, order, ent)
    ensures |rows| == |depts| + 1 && rows[0] == EnterpriseRow(ts, cs, depts)
    ensures forall k :: 1 <= k < |rows| ==> rows[k] == DepartmentRow(ts, cs, depts, k - 1)
  {
    var first := ent.Finish();
    assert first == EnterpriseRow(ts, cs, depts) by {
      FinishedIsRow(ent, ts, cs, Everyone);
    }
    rows := [first];
    for i := 0 to |order|
      invariant |rows| == i + 1 && rows[0] == first
      invariant forall k :: 1 <= k < |rows| ==> rows[k] == DepartmentRow(ts, cs, depts, k - 1)
    {
      var row := order[i].Finish();
      assert row == DepartmentRow(ts, cs, depts, i) by {
        FinishedIsRow(order[i], ts, cs, WhoAt(depts, i));
      }
      rows := rows + [row];
    }
  }

  /** The rows are the enterprise's and then the departments', as gathered from all the facts. */
  method BuildSettlement(ts: seq<TripFact>, cs: seq<ChargeFact>, depts: seq<Dept>) returns (rows: seq<Row>)
    ensures |rows| == |depts| + 1 && rows[0] == EnterpriseRow(ts, cs, depts)
    ensures forall k :: 1 <= k < |rows| ==> rows[k] == DepartmentRow(ts, cs, depts, k - 1)
  {
    var ent, order, byDept := OpenDrafts(depts);
    assert ts[..0] == [] && ts[..|ts|] == ts && cs[..0] == [] && cs[..|cs|] == cs && depts[..|depts|] == depts;
    GatherTrips(ts, depts, order, byDept, ent);
    GatherCharges(ts, cs, depts, order, byDept, ent);
    rows := FinishAll(ts, cs, depts, order, ent);
  }
}
