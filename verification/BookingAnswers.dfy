/** What the booking module answers, said on the rows themselves: when each request is granted, and what it leaves. */
module BookingAnswers {
  import opened Basics
  import opened Booking
  import W = Workflow

  /** A booking other than that one keeps the vehicle within 15 minutes of the window. */
  predicate Books(d: Desk, i: Id, v: Id, start: int, end: int, exclude: Option<Id>) {
    && i in d.bookings && d.bookings[i].vehicle == Some(v) && exclude != Some(i)
    && (d.bookings[i].status == Reserved || d.bookings[i].status == Departed)
    && d.bookings[i].start - 900 < end && start < d.bookings[i].end + 900
  }

  predicate Requests(db: W.Db, i: Id, v: Id, start: int, end: int) {
    && i in db.approvals && db.approvals[i].vehicle == Some(v)
    && (db.approvals[i].status == W.PendingL1 || db.approvals[i].status == W.PendingL2
        || db.approvals[i].status == W.Approved || db.approvals[i].status == W.InUse)
    && db.approvals[i].start - 900 < end && start < db.approvals[i].end + 900
  }

  ghost predicate Untaken(d: Desk, v: Id, start: int, end: int, exclude: Option<Id>) {
    && (forall i :: i in d.bookings ==> !Books(d, i, v, start, end, exclude))
    && (forall i :: i in d.db.approvals ==> !Requests(d.db, i, v, start, end))
  }

  /** Free is exactly that: no active booking but the excluded one and no active request near the window. */
  lemma FreeIffUntaken(d: Desk, v: Id, start: int, end: int, exclude: Option<Id>)
    ensures Free(d, v, start, end, exclude) <==> Untaken(d, v, start, end, exclude)
  {
    var taken, requested := BookingConflicts(d.bookings, v, start, end, exclude), W.Conflicts(d.db, v, start, end, None);
    forall i ensures i in taken <==> Books(d, i, v, start, end, exclude) {
    }
    forall i ensures i in requested <==> Requests(d.db, i, v, start, end) {
    }
    assert Untaken(d, v, start, end, exclude) ==> taken == {} && requested == {};
  }

  /** A vehicle is listed exactly when it is idle or charging, not deleted, and free. */
  lemma ListedIffFree(d: Desk, v: Id, start: int, end: int, exclude: Option<Id>)
    ensures v in AvailableVehicles(d, start, end, exclude) <==>
              && v in d.db.vehicles && !d.db.vehicles[v].deleted
              && (d.db.vehicles[v].status == W.Idle || d.db.vehicles[v].status == W.Charging)
              && Untaken(d, v, start, end, exclude)
  {
    assert forall i :: Books(d, i, v, start, end, exclude) <==>
      && i in d.bookings && d.bookings[i].vehicle == Some(v) && Some(i) != exclude
      && Active(d.bookings[i].status) && Clash(d.bookings[i], start, end);
    assert forall i :: Requests(d.db, i, v, start, end) <==>
      && i in d.db.approvals && d.db.approvals[i].vehicle == Some(v)
      && W.Active(d.db.approvals[i].status) && W.Clash(d.db.approvals[i], start, end);
  }

  /** A vehicle that a booking can have: there, in service, and free around the window. */
  ghost predicate CanHave(d: Desk, v: Id, start: int, end: int, exclude: Option<Id>) {
    && v in d.db.vehicles && !d.db.vehicles[v].deleted
    && d.db.vehicles[v].status != W.Maintenance && d.db.vehicles[v].status != W.Disabled
    && Untaken(d, v, start, end, exclude)
  }

  lemma CheckIsGrantedIff(d: Desk, v: Id, start: int, end: int, exclude: Option<Id>)
    ensures var reply := CheckVehicle(d, v, start, end, exclude);
            && (reply == Done <==> CanHave(d, v, start, end, exclude))
            && (reply == BadRequest <==> v !in d.db.vehicles || d.db.vehicles[v].deleted)
            && (reply == Done || reply == BadRequest || reply == Conflict)
  {
    FreeIffUntaken(d, v, start, end, exclude);
  }

  /** A window of five minutes to seven days that starts no more than thirty days ago. */
  predicate GoodWindow(start: int, end: int, now: int) {
    300 <= end - start <= 604800 && now - 2592000 <= start
  }

  /** A booking is made exactly for a good window, a known passenger and, if one is named, a vehicle it can have. */
  lemma CreationIsGrantedIff(d: Desk, id: Id, vehicle: Option<Id>, start: int, end: int, known: bool, now: int)
    requires id !in d.bookings
    ensures var reply, e := CreateReply(d, vehicle, start, end, known, now), Serve(d, Create(id, vehicle, start, end, known), now);
            && (reply == Done <==> GoodWindow(start, end, now) && known
                                   && (vehicle.Some? ==> CanHave(d, vehicle.value, start, end, None)))
            && (reply == Done ==> e == Desk(d.db, d.bookings[id := Booking(vehicle, start, end, Reserved)]))
            && (reply != Done ==> e == d)
  {
    if vehicle.Some? {
      CheckIsGrantedIff(d, vehicle.value, start, end, None);
    }
  }

  /** The window and the vehicle an edit asks for. */
  ghost predicate AsksFor(b: Booking, e: Edit, vehicle: Option<Id>, start: int, end: int) {
    && start == (match e.start case Some(x) => x case None => b.start)
    && end == (match e.end case Some(x) => x case None => b.end)
    && (e.clearVehicle ==> vehicle == None)
    && (!e.clearVehicle ==> vehicle == match e.vehicle case Some(v) => Some(v) case None => b.vehicle)
  }

  /** An edit is granted exactly on a reserved booking, for a good window if it moves that, with a known passenger if
      it names one to keep, and for a vehicle that can be had if it names a vehicle or moves the window. It then leaves
      what it asks for: no vehicle when it clears it, whatever else it says. */
  lemma EditIsGrantedIff(d: Desk, id: Id, e: Edit, now: int, vehicle: Option<Id>, start: int, end: int)
    requires id in d.bookings && AsksFor(d.bookings[id], e, vehicle, start, end)
    ensures var reply, f := UpdateReply(d, id, e, now), Serve(d, Update(id, e), now);
            var moved := e.start.Some? || e.end.Some?;
            && (reply == Done <==>
                  && d.bookings[id].status == Reserved && (moved ==> GoodWindow(start, end, now))
                  && (e.passenger == Some(false) ==> e.clearPassenger)
                  && (vehicle.Some? && (e.vehicle.Some? || moved) ==> CanHave(d, vehicle.value, start, end, Some(id))))
            && (reply == Done ==> f == Desk(d.db, d.bookings[id := Booking(vehicle, start, end, Reserved)]))
            && (reply != Done ==> f == d)
  {
    if vehicle.Some? {
      CheckIsGrantedIff(d, vehicle.value, start, end, Some(id));
    }
  }

  /** Clearing the vehicle wins over naming one: a granted edit that clears leaves no vehicle. */
  lemma ClearingWins(d: Desk, id: Id, e: Edit, now: int)
    requires e.clearVehicle && UpdateReply(d, id, e, now) == Done
    ensures id in Serve(d, Update(id, e), now).bookings && Serve(d, Update(id, e), now).bookings[id].vehicle == None
  {
  }

  /** The arrows of a booking: reserved departs or is cancelled, departed completes. */
  predicate Arrow(from: Status, event: Event, to: Status) {
    || (from == Reserved && event == Depart && to == Departed)
    || (from == Departed && event == Complete && to == Finished)
    || (from == Reserved && event == Cancel && to == Dropped)
  }

  /** A transition is granted exactly along an arrow, and a departure only with a vehicle that is idle or charging. */
  lemma TransitionIsGrantedIff(d: Desk, id: Id, event: Event, now: int)
    requires id in d.bookings
    ensures var b, reply, e := d.bookings[id], TransitionReply(d, id, event), Serve(d, Transition(id, event), now);
            && (reply == Done <==>
                  && (exists to :: Arrow(b.status, event, to))
                  && (event == Depart ==>
                        && b.vehicle.Some? && b.vehicle.value in d.db.vehicles
                        && (d.db.vehicles[b.vehicle.value].status == W.Idle || d.db.vehicles[b.vehicle.value].status == W.Charging)))
            && (reply == Done ==>
                  exists to :: Arrow(b.status, event, to) && e == Desk(d.db, d.bookings[id := b.(status := to)]))
            && (reply != Done ==> reply == Conflict && e == d)
  {
    var b := d.bookings[id];
    assert forall to :: Arrow(b.status, event, to) <==> NextStatus(b.status, event) == Some(to);
    if NextStatus(b.status, event).Some? {
      assert Arrow(b.status, event, NextStatus(b.status, event).value);
    }
  }

  lemma MissingIsNotFound(d: Desk, id: Id, e: Edit, event: Event, now: int)
    ensures UpdateReply(d, id, e, now) == NotFound <==> id !in d.bookings
    ensures TransitionReply(d, id, event) == NotFound <==> id !in d.bookings
  {
  }
}
