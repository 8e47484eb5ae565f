/** Advance bookings of vehicles: they share the fleet with the requests, and keep their own windows apart. */
module Booking {
  import opened Basics
  import W = Workflow

  datatype Status = Reserved | Departed | Finished | Dropped
  datatype Event = Depart | Complete | Cancel

  function NextStatus(status: Status, event: Event): Option<Status> {
    match event
    case Depart => if status.Reserved? then Some(Departed) else None
    case Complete => if status.Departed? then Some(Finished) else None
    case Cancel => if status.Reserved? then Some(Dropped) else None
  }

  predicate Active(s: Status) {
    s.Reserved? || s.Departed?
  }

  datatype Booking = Booking(vehicle: Option<Id>, start: int, end: int, status: Status)

  /** The bookings beside the tables they share with the requests. */
  datatype Desk = Desk(db: W.Db, bookings: map<Id, Booking>)

  datatype Reply = Done | NotFound | Conflict | BadRequest

  const MIN_DURATION := 5 * 60
  const MAX_DURATION := 7 * 24 * 3600
  const PAST_LIMIT := 30 * 24 * 3600

  datatype Fault = NotAfter | TooShort | TooLong | TooOld

  function ValidateWindow(start: int, end: int, now: int): (fault: Option<Fault>)
    ensures fault.None? <==> MIN_DURATION <= end - start <= MAX_DURATION && now - PAST_LIMIT <= start
  {
    var d := end - start;
    if d <= 0 then Some(NotAfter)
    else if d < MIN_DURATION then Some(TooShort)
    else if d > MAX_DURATION then Some(TooLong)
    else if start < now - PAST_LIMIT then Some(TooOld)
    else None
  }

  // ---- who holds a vehicle

  predicate Clash(b: Booking, start: int, end: int) {
    b.start < end + W.MARGIN && b.end > start - W.MARGIN
  }

  function BookingConflicts(bookings: map<Id, Booking>, v: Id, start: int, end: int, exclude: Option<Id>): set<Id> {
    set i | i in bookings && bookings[i].vehicle == Some(v) && Some(i) != exclude
            && Active(bookings[i].status) && Clash(bookings[i], start, end)
  }

  /** Neither another active booking nor any active request has the vehicle around that time. */
  predicate Free(d: Desk, v: Id, start: int, end: int, exclude: Option<Id>) {
    BookingConflicts(d.bookings, v, start, end, exclude) == {} && W.Conflicts(d.db, v, start, end, None) == {}
  }

  function CheckVehicle(d: Desk, v: Id, start: int, end: int, exclude: Option<Id>): Reply {
    if !W.Exists(d.db, v) then BadRequest
    else if W.Unusable(d.db.vehicles[v]) then Conflict
    else if !Free(d, v, start, end, exclude) then Conflict
    else Done
  }

  function AvailableVehicles(d: Desk, start: int, end: int, exclude: Option<Id>): set<Id> {
    set v | v in d.db.vehicles && !d.db.vehicles[v].deleted
            && (d.db.vehicles[v].status.Idle? || d.db.vehicles[v].status.Charging?)
            && (!exists i :: i in d.bookings && d.bookings[i].vehicle == Some(v) && Some(i) != exclude
                             && Active(d.bookings[i].status) && Clash(d.bookings[i], start, end))
            && (!exists i :: i in d.db.approvals && d.db.approvals[i].vehicle == Some(v)
                             && W.Active(d.db.approvals[i].status) && W.Clash(d.db.approvals[i], start, end))
  }

  // ---- the three writes

  function CreateReply(d: Desk, vehicle: Option<Id>, start: int, end: int, passengerKnown: bool, now: int): Reply {
    if ValidateWindow(start, end, now).Some? || !passengerKnown then BadRequest
    else if vehicle.Some? then CheckVehicle(d, vehicle.value, start, end, None)
    else Done
  }

  /** An edit; absent fields keep their value, and clearing the vehicle wins over naming one.
      The new passenger comes with whether such an active user exists. */
  datatype Edit = Edit(start: Option<int>, end: Option<int>, clearVehicle: bool, vehicle: Option<Id>,
                       clearPassenger: bool, passenger: Option<bool>)

  function Edited(b: Booking, e: Edit): Booking {
    b.(start := if e.start.Some? then e.start.value else b.start,
       end := if e.end.Some? then e.end.value else b.end,
       vehicle := if e.clearVehicle then None else if e.vehicle.Some? then e.vehicle else b.vehicle)
  }

  function UpdateReply(d: Desk, id: Id, e: Edit, now: int): Reply {
    if id !in d.bookings then NotFound
    else
      var b, c := d.bookings[id], Edited(d.bookings[id], e);
      var moved := e.start.Some? || e.end.Some?;
      if !b.status.Reserved? then Conflict
      else if moved && ValidateWindow(c.start, c.end, now).Some? then BadRequest
      else if !e.clearPassenger && e.passenger == Some(false) then BadRequest
      else if c.vehicle.Some? && (e.vehicle.Some? || moved) then CheckVehicle(d, c.vehicle.value, c.start, c.end, Some(id))
      else Done
  }

  predicate CanDepart(v: W.Vehicle) {
    v.status.Idle? || v.status.Charging?
  }

  function TransitionReply(d: Desk, id: Id, event: Event): Reply {
    if id !in d.bookings then NotFound
    else
      var b := d.bookings[id];
      if NextStatus(b.status, event).None? then Conflict
      else if event.Depart? && (b.vehicle.None? || b.vehicle.value !in d.db.vehicles
                                || !CanDepart(d.db.vehicles[b.vehicle.value])) then Conflict
      else Done
  }

  datatype Request =
    | Create(newId: Id, vehicle: Option<Id>, start: int, end: int, passengerKnown: bool)
    | Update(id: Id, edit: Edit)
    | Transition(id: Id, event: Event)
    | Elsewhere(db: W.Db)   // the other modules rewrite requests, trips and vehicles as they like

  function Serve(d: Desk, q: Request, now: int): Desk {
    match q
    case Create(id, vehicle, start, end, known) =>
      if id in d.bookings || !CreateReply(d, vehicle, start, end, known, now).Done? then d
      else d.(bookings := d.bookings[id := Booking(vehicle, start, end, Reserved)])
    case Update(id, e) =>
      if !UpdateReply(d, id, e, now).Done? then d
      else d.(bookings := d.bookings[id := Edited(d.bookings[id], e)])
    case Transition(id, event) =>
      if !TransitionReply(d, id, event).Done? then d
      else d.(bookings := d.bookings[id := d.bookings[id].(status := NextStatus(d.bookings[id].status, event).value)])
    case Elsewhere(db) => d.(db := db)
  }

  function Run(steps: seq<(Request, int)>): Desk {
    if steps == [] then Desk(W.EMPTY.db, map[])
    else
      var last := steps[|steps| - 1];
      Serve(Run(steps[..|steps| - 1]), last.0, last.1)
  }

  // ---- what every run keeps

  /** Two bookings that keep the same vehicle leave it at least the margin in between. */
  predicate Apart(a: Booking, b: Booking) {
    Active(a.status) && Active(b.status) && a.vehicle.Some? && a.vehicle == b.vehicle ==>
      a.end + W.MARGIN <= b.start || b.end + W.MARGIN <= a.start
  }

  ghost predicate BookingsApart(bookings: map<Id, Booking>) {
    forall i, j :: i in bookings && j in bookings && i != j ==> Apart(bookings[i], bookings[j])
  }

  /** Every window is of an allowed length, and whatever departed had a vehicle. */
  predicate Sound(b: Booking) {
    MIN_DURATION <= b.end - b.start <= MAX_DURATION && (b.status.Departed? || b.status.Finished? ==> b.vehicle.Some?)
  }

  ghost predicate Inv(d: Desk) {
    BookingsApart(d.bookings) && forall i :: i in d.bookings ==> Sound(d.bookings[i])
  }

  lemma PutKeepsApart(bookings: map<Id, Booking>, id: Id, row: Booking)
    requires BookingsApart(bookings)
    requires Active(row.status) && row.vehicle.Some? ==>
               || BookingConflicts(bookings, row.vehicle.value, row.start, row.end, Some(id)) == {}
               || (id in bookings && Active(bookings[id].status) && bookings[id].vehicle == row.vehicle
                   && bookings[id].start == row.start && bookings[id].end == row.end)
    ensures BookingsApart(bookings[id := row])
  {
    forall i | i in bookings && i != id ensures Apart(row, bookings[i]) && Apart(bookings[i], row) {
      if Active(row.status) && row.vehicle.Some? && BookingConflicts(bookings, row.vehicle.value, row.start, row.end, Some(id)) == {} {
        assert i !in BookingConflicts(bookings, row.vehicle.value, row.start, row.end, Some(id));
      } else if id in bookings {
        assert Apart(bookings[id], bookings[i]) && Apart(bookings[i], bookings[id]);
      }
    }
  }

  lemma ServeKeepsInv(d: Desk, q: Request, now: int)
    requires Inv(d)
    ensures Inv(Serve(d, q, now))
  {
    match q
    case Create(id, vehicle, start, end, known) =>
      if id !in d.bookings && CreateReply(d, vehicle, start, end, known, now).Done? {
        if vehicle.Some? {
          assert BookingConflicts(d.bookings, vehicle.value, start, end, Some(id))
              == BookingConflicts(d.bookings, vehicle.value, start, end, None);
        }
        PutKeepsApart(d.bookings, id, Booking(vehicle, start, end, Reserved));
      }
    case Update(id, e) =>
      if UpdateReply(d, id, e, now).Done? {
        PutKeepsApart(d.bookings, id, Edited(d.bookings[id], e));
      }
    case Transition(id, event) =>
      if TransitionReply(d, id, event).Done? {
        PutKeepsApart(d.bookings, id, d.bookings[id].(status := NextStatus(d.bookings[id].status, event).value));
      }
    case Elsewhere(_) =>
  }

  lemma {:induction false} EveryRunKeepsInv(steps: seq<(Request, int)>)
    ensures Inv(Run(steps))
  {
    if steps != [] {
      var last := steps[|steps| - 1];
      EveryRunKeepsInv(steps[..|steps| - 1]);
      ServeKeepsInv(Run(steps[..|steps| - 1]), last.0, last.1);
    }
  }

  /** Two active bookings for one vehicle are at least 15 minutes apart, through every create, edit and status change. */
  lemma ActiveBookingsAreApart(steps: seq<(Request, int)>, i: Id, j: Id)
    requires var bs := Run(steps).bookings;
             && i in bs && j in bs && i != j && Active(bs[i].status) && Active(bs[j].status)
             && bs[i].vehicle.Some? && bs[i].vehicle == bs[j].vehicle
    ensures var a, b := Run(steps).bookings[i], Run(steps).bookings[j];
            a.end + 900 <= b.start || b.end + 900 <= a.start
  {
    EveryRunKeepsInv(steps);
    assert Apart(Run(steps).bookings[i], Run(steps).bookings[j]);
  }

  /** A booking that was finished or dropped is never written again. */
  lemma FinalStays(d: Desk, q: Request, now: int, id: Id)
    requires id in d.bookings && !Active(d.bookings[id].status)
    ensures id in Serve(d, q, now).bookings && Serve(d, q, now).bookings[id] == d.bookings[id]
  {
  }

  /** A vehicle on the list passes the check, for a new booking and for an edit that keeps its own row out. */
  lemma ListedVehicleIsAccepted(d: Desk, v: Id, start: int, end: int, exclude: Option<Id>)
    requires v in AvailableVehicles(d, start, end, exclude)
    ensures Free(d, v, start, end, exclude) && CheckVehicle(d, v, start, end, exclude).Done?
  {
    assert forall i :: i in BookingConflicts(d.bookings, v, start, end, exclude) ==> i in d.bookings;
    assert forall i :: i in W.Conflicts(d.db, v, start, end, None) ==> i in d.db.approvals;
  }

  /** The two modules agree on what free means exactly when no active booking is near the window: the requests'
      own query looks at requests only. */
  lemma ModulesAgreeUnlessBooked(d: Desk, v: Id, start: int, end: int)
    ensures Free(d, v, start, end, None) ==> W.Conflicts(d.db, v, start, end, None) == {}
    ensures W.Conflicts(d.db, v, start, end, None) == {} ==>
              (Free(d, v, start, end, None) <==>
               forall i :: i in d.bookings && d.bookings[i].vehicle == Some(v) && Active(d.bookings[i].status) ==>
                 d.bookings[i].end + W.MARGIN <= start || end + W.MARGIN <= d.bookings[i].start)
  {
    var cs := BookingConflicts(d.bookings, v, start, end, None);
    if cs == {} {
      forall i | i in d.bookings && d.bookings[i].vehicle == Some(v) && Active(d.bookings[i].status)
        ensures d.bookings[i].end + W.MARGIN <= start || end + W.MARGIN <= d.bookings[i].start
      {
        assert i !in cs;
      }
    } else {
      var i :| i in cs;
      assert Clash(d.bookings[i], start, end);
    }
  }

  /** A desk where they differ: one booking, which the requests' query does not see. */
  lemma RequestsDoNotSeeBookings(v: Id, i: Id, start: int, end: int)
    requires start < end
    ensures var d := Desk(W.EMPTY.db, map[i := Booking(Some(v), start, end, Reserved)]);
            W.Conflicts(d.db, v, start, end, None) == {} && !Free(d, v, start, end, None)
  {
    var d := Desk(W.EMPTY.db, map[i := Booking(Some(v), start, end, Reserved)]);
    assert i in BookingConflicts(d.bookings, v, start, end, None);
  }

  // ---- the same writes, statement by statement

  class BookingDesk {
    var db: W.Db
    var bookings: map<Id, Booking>

    constructor (tables: W.Db)
      ensures State() == Desk(tables, map[])
    {
      db, bookings := tables, map[];
    }

    function State(): Desk
      reads this
    {
      Desk(db, bookings)
    }

    method Check(v: Id, start: int, end: int, exclude: Option<Id>) returns (reply: Reply)
      ensures reply == CheckVehicle(State(), v, start, end, exclude)
    {
      if v !in db.vehicles || db.vehicles[v].deleted {
        return BadRequest;
      }
      if db.vehicles[v].status.Maintenance? || db.vehicles[v].status.Disabled? {
        return Conflict;
      }
      var taken := BookingConflicts(bookings, v, start, end, exclude);
      var requested := W.Conflicts(db, v, start, end, None);
      reply := if taken != {} || requested != {} then Conflict else Done;
    }

    method Create(id: Id, vehicle: Option<Id>, start: int, end: int, passengerKnown: bool, now: int) returns (reply: Reply)
      requires id !in bookings
      modifies this`bookings
      ensures reply == CreateReply(old(State()), vehicle, start, end, passengerKnown, now)
      ensures State() == Serve(old(State()), Request.Create(id, vehicle, start, end, passengerKnown), now)
    {
      if ValidateWindow(start, end, now).Some? || !passengerKnown {
        return BadRequest;
      }
      if vehicle.Some? {
        reply := Check(vehicle.value, start, end, None);
        if reply != Done {
          return;
        }
      }
      bookings := bookings[id := Booking(vehicle, start, end, Reserved)];
      return Done;
    }

    method Update(id: Id, e: Edit, now: int) returns (reply: Reply)
      modifies this`bookings
      ensures reply == UpdateReply(old(State()), id, e, now)
      ensures State() == Serve(old(State()), Request.Update(id, e), now)
    {
      if id !in bookings {
        return NotFound;
      }
      var b := bookings[id];
      if b.status != Reserved {
        return Conflict;
      }
      var moved := e.start.Some? || e.end.Some?;
      if e.start.Some? {
        b := b.(start := e.start.value);
      }
      if e.end.Some? {
        b := b.(end := e.end.value);
      }
      if moved && ValidateWindow(b.start, b.end, now).Some? {
        return BadRequest;
      }
      if !e.clearPassenger && e.passenger == Some(false) {
        return BadRequest;
      }
      if e.clearVehicle {
        b := b.(vehicle := None);
      } else if e.vehicle.Some? {
        b := b.(vehicle := e.vehicle);
      }
      if b.vehicle.Some? && (e.vehicle.Some? || moved) {
        reply := Check(b.vehicle.value, b.start, b.end, Some(id));
        if reply != Done {
          return;
        }
      }
      bookings := bookings[id := b];
      return Done;
    }

    method Transition(id: Id, event: Event) returns (reply: Reply)
      modifies this`bookings
      ensures reply == TransitionReply(old(State()), id, event)
      ensures forall now :: State() == Serve(old(State()), Request.Transition(id, event), now)
    {
      if id !in bookings {
        return NotFound;
      }
      var b := bookings[id];
      var next := NextStatus(b.status, event);
      if next.None? {
        return Conflict;
      }
      if next.value.Departed? {
        if b.vehicle.None? || b.vehicle.value !in db.vehicles {
          return Conflict;
        }
        if !CanDepart(db.vehicles[b.vehicle.value]) {
          return Conflict;
        }
      }
      bookings := bookings[id := b.(status := next.value)];
      return Done;
    }
  }
}
