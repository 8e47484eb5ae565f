/** What one more fact does to a settlement row, said on the fact itself. */
module SettlementEffects {
  import opened Basics
  import opened SettlementLines
  import opened StableSort
  import opened Settlement

  lemma OneMoreTripColumn(dept: Option<Id>, budget: int, ts: seq<TripFact>, t: TripFact, cs: seq<ChargeFact>, who: Who, c: Column)
    ensures InColumn(RowFor(dept, budget, ts + [t], cs, who), c)
         == InColumn(RowFor(dept, budget, ts, cs, who), c) + if Concerns(who, t.dept) then TripShare(t, c) else 0
  {
    RowGathers(dept, budget, ts, cs, who, c);
    RowGathers(dept, budget, ts + [t], cs, who, c);
    assert (ts + [t])[..|ts|] == ts;
  }

  lemma OneMoreChargeColumn(dept: Option<Id>, budget: int, ts: seq<TripFact>, cs: seq<ChargeFact>, f: ChargeFact, who: Who, c: Column)
    ensures InColumn(RowFor(dept, budget, ts, cs + [f], who), c)
         == InColumn(RowFor(dept, budget, ts, cs, who), c) + if Concerns(who, f.dept) then ChargeShare(f, c) else 0
  {
    RowGathers(dept, budget, ts, cs, who, c);
    RowGathers(dept, budget, ts, cs + [f], who, c);
    assert (cs + [f])[..|cs|] == cs;
  }

  lemma OneMoreTripLines(ts: seq<TripFact>, t: TripFact, cs: seq<ChargeFact>, who: Who)
    ensures multiset(LinesFor(ts + [t], cs, who))
         == multiset(LinesFor(ts, cs, who)) + (if Concerns(who, t.dept) then multiset(TripLinesOf(t)) else multiset{})
  {
    assert (ts + [t])[..|ts|] == ts;
  }

  lemma OneMoreChargeLines(ts: seq<TripFact>, cs: seq<ChargeFact>, f: ChargeFact, who: Who)
    ensures multiset(LinesFor(ts, cs + [f], who))
         == multiset(LinesFor(ts, cs, who)) + (if Concerns(who, f.dept) then multiset{ChargeLineOf(f)} else multiset{})
  {
    assert (cs + [f])[..|cs|] == cs;
  }

  /** The numbers of a row are those of another with so much more in each column. */
  predicate Adds(before: Row, after: Row, trips: int, tripCost: int, charges: int, chargeCost: int, penalty: int) {
    && after.trips == before.trips + trips && after.tripCost == before.tripCost + tripCost
    && after.charges == before.charges + charges && after.chargeCost == before.chargeCost + chargeCost
    && after.penalty == before.penalty + penalty && after.total == before.total + tripCost + chargeCost + penalty
    && after.dept == before.dept && after.budget == before.budget
  }

  /** What is in the columns decides the rest of the numbers. */
  lemma ColumnsAdd(before: Row, after: Row, trips: int, tripCost: int, charges: int, chargeCost: int, penalty: int)
    requires InColumn(after, Trips) == InColumn(before, Trips) + trips
    requires InColumn(after, TripCost) == InColumn(before, TripCost) + tripCost
    requires InColumn(after, Charges) == InColumn(before, Charges) + charges
    requires InColumn(after, ChargeCost) == InColumn(before, ChargeCost) + chargeCost
    requires InColumn(after, Penalty) == InColumn(before, Penalty) + penalty
    requires before.total == before.tripCost + before.chargeCost + before.penalty
    requires after.total == after.tripCost + after.chargeCost + after.penalty
    requires after.dept == before.dept && after.budget == before.budget
    ensures Adds(before, after, trips, tripCost, charges, chargeCost, penalty)
  {
  }

  // Once for a fact that the row gathers, not at all for another: n times the shares of the fact.
  lemma TripNumbersAdd(dept: Option<Id>, budget: int, ts: seq<TripFact>, t: TripFact, cs: seq<ChargeFact>, who: Who, n: int, rest: int, penalty: int)
    requires if Concerns(who, t.dept) then n == 1 && penalty == Fine(t) && rest == t.cost - penalty else n == rest == penalty == 0
    ensures Adds(RowFor(dept, budget, ts, cs, who), RowFor(dept, budget, ts + [t], cs, who), n, rest, 0, 0, penalty)
  {
    OneMoreTripColumn(dept, budget, ts, t, cs, who, Trips);
    OneMoreTripColumn(dept, budget, ts, t, cs, who, TripCost);
    OneMoreTripColumn(dept, budget, ts, t, cs, who, Charges);
    OneMoreTripColumn(dept, budget, ts, t, cs, who, ChargeCost);
    OneMoreTripColumn(dept, budget, ts, t, cs, who, Penalty);
    ColumnsAdd(RowFor(dept, budget, ts, cs, who), RowFor(dept, budget, ts + [t], cs, who), n, rest, 0, 0, penalty);
  }

  lemma ChargeNumbersAdd(dept: Option<Id>, budget: int, ts: seq<TripFact>, cs: seq<ChargeFact>, f: ChargeFact, who: Who, n: int, cost: int)
    requires if Concerns(who, f.dept) then n == 1 && cost == f.cost else n == cost == 0
    ensures Adds(RowFor(dept, budget, ts, cs, who), RowFor(dept, budget, ts, cs + [f], who), 0, 0, n, cost, 0)
  {
    OneMoreChargeColumn(dept, budget, ts, cs, f, who, Trips);
    OneMoreChargeColumn(dept, budget, ts, cs, f, who, TripCost);
    OneMoreChargeColumn(dept, budget, ts, cs, f, who, Charges);
    OneMoreChargeColumn(dept, budget, ts, cs, f, who, ChargeCost);
    OneMoreChargeColumn(dept, budget, ts, cs, f, who, Penalty);
    ColumnsAdd(RowFor(dept, budget, ts, cs, who), RowFor(dept, budget, ts, cs + [f], who), 0, 0, n, cost, 0);
  }

  /** The part of a trip's cost that is penalty: none without a positive fine, the fine as far as the cost goes. */
  ghost predicate IsPenaltyOf(t: TripFact, penalty: int) {
    && (t.fine == None || t.fine.value <= 0 ==> penalty == 0)
    && (t.fine.Some? && 0 < t.fine.value <= t.cost ==> penalty == t.fine.value)
    && (t.fine.Some? && 0 < t.fine.value && t.cost < t.fine.value ==> penalty == t.cost)
  }

  lemma LinesOfOneTrip(t: TripFact, penalty: int)
    requires IsPenaltyOf(t, penalty)
    ensures Fine(t) == penalty
    ensures multiset(TripLinesOf(t)) == multiset{Line(TripLine, t.id, t.endAt, t.cost - penalty)}
                                        + (if penalty > 0 then multiset{Line(PenaltyLine, t.id, t.endAt, penalty)} else multiset{})
  {
  }

  lemma SortedTripLines(dept: Option<Id>, budget: int, ts: seq<TripFact>, t: TripFact, cs: seq<ChargeFact>, who: Who)
    ensures multiset(RowFor(dept, budget, ts + [t], cs, who).lines)
         == multiset(RowFor(dept, budget, ts, cs, who).lines)
            + (if Concerns(who, t.dept) then multiset(TripLinesOf(t)) else multiset{})
  {
    OneMoreTripLines(ts, t, cs, who);
    RowLinesAreSorted(dept, budget, ts, cs, who);
    RowLinesAreSorted(dept, budget, ts + [t], cs, who);
  }

  lemma SortedChargeLines(dept: Option<Id>, budget: int, ts: seq<TripFact>, cs: seq<ChargeFact>, f: ChargeFact, who: Who)
    ensures multiset(RowFor(dept, budget, ts, cs + [f], who).lines)
         == multiset(RowFor(dept, budget, ts, cs, who).lines)
            + (if Concerns(who, f.dept) then multiset{ChargeLineOf(f)} else multiset{})
  {
    OneMoreChargeLines(ts, cs, f, who);
    RowLinesAreSorted(dept, budget, ts, cs, who);
    RowLinesAreSorted(dept, budget, ts, cs + [f], who);
  }

  /** One more trip that a row gathers counts as one, puts the penalty part of its cost under penalty and the rest
      under trip cost, and adds a trip line of the rest and, if there is any penalty, a penalty line of it. */
  lemma OneMoreTripMovesTheRow(dept: Option<Id>, budget: int, ts: seq<TripFact>, t: TripFact, cs: seq<ChargeFact>, who: Who, penalty: int)
    requires Concerns(who, t.dept) && IsPenaltyOf(t, penalty)
    ensures var before, after := RowFor(dept, budget, ts, cs, who), RowFor(dept, budget, ts + [t], cs, who);
            && Adds(before, after, 1, t.cost - penalty, 0, 0, penalty)
            && multiset(after.lines) == multiset(before.lines) + multiset{Line(TripLine, t.id, t.endAt, t.cost - penalty)}
                                        + (if penalty > 0 then multiset{Line(PenaltyLine, t.id, t.endAt, penalty)} else multiset{})
  {
    LinesOfOneTrip(t, penalty);
    TripNumbersAdd(dept, budget, ts, t, cs, who, 1, t.cost - penalty, penalty);
    SortedTripLines(dept, budget, ts, t, cs, who);
  }

  /** One more charging session counts as one, adds its cost to the charge cost, and a line of it. */
  lemma OneMoreChargeMovesTheRow(dept: Option<Id>, budget: int, ts: seq<TripFact>, cs: seq<ChargeFact>, f: ChargeFact, who: Who)
    requires Concerns(who, f.dept)
    ensures var before, after := RowFor(dept, budget, ts, cs, who), RowFor(dept, budget, ts, cs + [f], who);
            && Adds(before, after, 0, 0, 1, f.cost, 0)
            && multiset(after.lines) == multiset(before.lines) + multiset{Line(ChargeLine, f.id, f.endAt, f.cost)}
  {
    ChargeNumbersAdd(dept, budget, ts, cs, f, who, 1, f.cost);
    SortedChargeLines(dept, budget, ts, cs, f, who);
  }

  /** Facts that a row does not gather leave its numbers and its lines. */
  lemma StrangersLeaveTheRow(dept: Option<Id>, budget: int, ts: seq<TripFact>, t: TripFact, cs: seq<ChargeFact>, f: ChargeFact, who: Who)
    requires !Concerns(who, t.dept) && !Concerns(who, f.dept)
    ensures var before, after := RowFor(dept, budget, ts, cs, who), RowFor(dept, budget, ts + [t], cs + [f], who);
            Adds(before, after, 0, 0, 0, 0, 0) && multiset(after.lines) == multiset(before.lines)
  {
    TripNumbersAdd(dept, budget, ts, t, cs, who, 0, 0, 0);
    ChargeNumbersAdd(dept, budget, ts + [t], cs, f, who, 0, 0);
    SortedTripLines(dept, budget, ts, t, cs, who);
    SortedChargeLines(dept, budget, ts + [t], cs, f, who);
  }

  /** Without facts every number is zero and there is no line. */
  lemma EmptyRow(dept: Option<Id>, budget: int, who: Who)
    ensures RowFor(dept, budget, [], [], who) == Row(dept, 0, 0, 0, 0, 0, 0, budget, [])
  {
  }

  /** The enterprise gathers everything; a department gathers the facts of its own id, in its last row if it is
      listed more than once. */
  lemma WhoGathersWhat(depts: seq<Dept>, k: nat, dept: Option<Id>)
    requires k < |depts|
    ensures Concerns(Everyone, dept)
    ensures Concerns(WhoAt(depts, k), dept) <==>
              dept == Some(depts[k].id) && forall j :: k < j < |depts| ==> depts[j].id != depts[k].id
  {
  }

  /** Rows carry their department and its budget, and the enterprise's budget is the sum of these. */
  lemma RowsAreLabelled(ts: seq<TripFact>, cs: seq<ChargeFact>, depts: seq<Dept>, d: Dept, k: nat)
    requires k < |depts|
    ensures DepartmentRow(ts, cs, depts, k).dept == Some(depts[k].id) && DepartmentRow(ts, cs, depts, k).budget == depts[k].budget
    ensures EnterpriseRow(ts, cs, depts).dept == None && EnterpriseRow(ts, cs, []).budget == 0
    ensures EnterpriseRow(ts, cs, depts + [d]).budget == EnterpriseRow(ts, cs, depts).budget + d.budget
  {
    assert (depts + [d])[..|depts|] == depts;
  }
}
