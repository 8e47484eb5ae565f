/** What the request module answers, said on the rows themselves: when each action is granted, and what it leaves. */
module WorkflowAnswers {
  import opened Basics
  import opened Workflow

  predicate IsPending(a: Approval) {
    a.status == PendingL1 || a.status == PendingL2
  }

  /** The actor is the approver whose turn it is, or a manager. */
  predicate MayDecide(a: Approval, actor: Actor) {
    actor.manage || (1 <= a.current <= |a.steps| && a.steps[a.current - 1].approver == actor.user)
  }

  /** Every other row is as it was. */
  ghost predicate OnlyRow(db: Db, e: Db, id: Id) {
    e.trips == db.trips && e.vehicles == db.vehicles && e.approvals - {id} == db.approvals - {id}
  }

  // ---- the arrows of the status machine

  /** The documented arrows; more says that the request asks for another level after the current one. */
  predicate Arrow(from: Status, event: Event, more: bool, to: Status) {
    || (from == PendingL1 && event == Event.Approve && more && to == PendingL2)
    || (from == PendingL1 && event == Event.Approve && !more && to == Approved)
    || (from == PendingL2 && event == Event.Approve && to == Approved)
    || ((from == PendingL1 || from == PendingL2) && event == Event.Reject && to == Rejected)
    || ((from == PendingL1 || from == PendingL2 || from == Approved) && event == Event.Cancel && to == Cancelled)
    || ((from == PendingL1 || from == PendingL2 || from == Approved) && event == Event.Expire && to == Expired)
    || (from == Approved && event == TripStart && to == InUse)
    || (from == InUse && event == TripEnd && to == Completed)
    || (from == InUse && event == TripCancel && to == Approved)
  }

  /** The machine allows exactly the arrows. */
  lemma MachineIsTheArrows(from: Status, event: Event, level: int, current: int, to: Status)
    ensures NextStatus(from, event, level, current) == Some(to) <==> Arrow(from, event, level >= 2 && current < level, to)
  {
  }

  /** In every run, each write of a status, the unguarded MarkStatus included, follows an arrow of the action's own
      event, and approval asks for a second level exactly when there is a second step. */
  lemma EveryStatusWriteIsAnArrow(actions: seq<Action>, a: Action, id: Id)
    requires id in Run(actions).db.approvals
    ensures id in Next(Run(actions), a).db.approvals
    ensures var before, after := Run(actions).db.approvals[id], Next(Run(actions), a).db.approvals[id];
            before.status == after.status ||
            (EventOf(a).Some? && Arrow(before.status, EventOf(a).value, |before.steps| == 2 && before.current == 1, after.status))
  {
    var before := Run(actions).db.approvals[id];
    EveryRunKeepsInv(actions);
    StepsTellTheStatus(actions, id);
    EveryStatusWriteIsATransition(Run(actions), a, id);
    if EventOf(a).Some? {
      MachineIsTheArrows(before.status, EventOf(a).value, before.level, before.current, Next(Run(actions), a).db.approvals[id].status);
    }
  }

  // ---- decisions

  /** A rejection is granted exactly while the request is pending, to the approver whose turn it is or a manager. */
  lemma RejectionIsGrantedIff(actions: seq<Action>, id: Id, actor: Actor)
    requires id in Run(actions).db.approvals
    ensures var db := Run(actions).db;
            var a, reply, e := db.approvals[id], RejectReply(db, id, actor), RejectTx(db, id, actor);
            && (reply == Done <==> IsPending(a) && MayDecide(a, actor))
            && (reply == Conflict <==> !IsPending(a))
            && (reply == Forbidden <==> IsPending(a) && !MayDecide(a, actor))
            && (reply == Done ==> id in e.approvals && e.approvals[id].status == Rejected && OnlyRow(db, e, id))
            && (reply != Done ==> e == db)
  {
    StepsTellTheStatus(actions, id);
  }

  /** What stands against giving the request this vehicle, if anything does; busy is what the conflict query found. */
  function VehicleAnswer(db: Db, a: Approval, actor: Actor, vehicle: Option<Id>, busy: bool): Reply {
    match vehicle
    case None => if a.vehicle == None then BadRequest else Done
    case Some(v) =>
      if a.vehicle == Some(v) then Done
      else if a.vehicle != None && !actor.manage then Forbidden
      else if v !in db.vehicles || db.vehicles[v].deleted then BadRequest
      else if db.vehicles[v].status == Maintenance || db.vehicles[v].status == Disabled || busy then Conflict
      else Done
  }

  /** An approval is granted exactly while the request is pending, to the approver whose turn it is or a manager, when
      the vehicle it leaves can be had; a first step of two leaves pending_l2, any other approved. */
  lemma ApprovalIsGrantedIff(actions: seq<Action>, id: Id, actor: Actor, vehicle: Option<Id>, busy: bool)
    requires id in Run(actions).db.approvals
    ensures var db := Run(actions).db;
            var a, reply := db.approvals[id], ApproveReply(db, id, actor, vehicle, busy);
            var e := ApproveTx(db, id, actor, vehicle, busy);
            && reply == (if !IsPending(a) then Conflict
                         else if !MayDecide(a, actor) then Forbidden
                         else VehicleAnswer(db, a, actor, vehicle, busy))
            && (reply == Done ==>
                  && id in e.approvals && OnlyRow(db, e, id)
                  && e.approvals[id].status == (if a.status == PendingL1 && |a.steps| == 2 then PendingL2 else Approved)
                  && e.approvals[id].vehicle == (if vehicle == None then a.vehicle else vehicle))
            && (reply != Done ==> e == db)
  {
    StepsTellTheStatus(actions, id);
  }

  /** A withdrawal is granted exactly to the applicant or a manager, while the request is pending or approved. */
  lemma WithdrawalIsGrantedIff(actions: seq<Action>, id: Id, actor: Actor)
    requires id in Run(actions).db.approvals
    ensures var db := Run(actions).db;
            var a, reply, e := db.approvals[id], CancelReply(db, id, actor), CancelTx(db, id, actor);
            var may := actor.manage || a.applicant == actor.user;
            && (reply == Done <==> may && (IsPending(a) || a.status == Approved))
            && (reply == Forbidden <==> !may)
            && (reply == Conflict <==> may && !IsPending(a) && a.status != Approved)
            && (reply == Done ==> id in e.approvals && e.approvals[id].status == Cancelled && OnlyRow(db, e, id))
            && (reply != Done ==> e == db)
  {
    StatusMirrorsTrips(actions, id);
  }

  /** A missing request is answered with not found by all of them. */
  lemma MissingIsNotFound(db: Db, id: Id, actor: Actor, vehicle: Option<Id>, busy: bool, driver: Option<bool>)
    ensures id !in db.approvals <==> ApproveReply(db, id, actor, vehicle, busy) == NotFound
    ensures id !in db.approvals <==> RejectReply(db, id, actor) == NotFound
    ensures id !in db.approvals <==> CancelReply(db, id, actor) == NotFound
    ensures id !in db.approvals <==> StartReply(db, id, driver) == NotFound
  {
  }

  // ---- trips

  ghost predicate HasTripOf(db: Db, v: Id) {
    exists t :: t in db.trips && db.trips[t].vehicle == v && db.trips[t].status == Ongoing
  }

  /** A trip is opened exactly on an approved request whose vehicle has no ongoing trip, and the request is then in_use. */
  lemma OpenIsGrantedIff(db: Db, t: Id, id: Id, v: Id)
    requires t !in db.trips
    ensures var reply, e := OpenReply(db, id, v), OpenTx(db, t, id, v);
            && (reply == Done <==> id in db.approvals && db.approvals[id].status == Approved && !HasTripOf(db, v))
            && (reply == NotFound <==> id !in db.approvals)
            && (reply == Done ==>
                  && e.trips == db.trips[t := Trip(id, v, Ongoing)]
                  && e.approvals == db.approvals[id := db.approvals[id].(status := InUse)] && e.vehicles == db.vehicles)
            && (reply != Done ==> e == db)
  {
  }

  /** In every run, an ongoing trip that ends leaves its request completed, one that is cancelled leaves it approved,
      and anything else is left alone. */
  lemma FinishLeaves(actions: seq<Action>, t: Id, to: TripStatus)
    requires to == Ended || to == Voided
    ensures var db := Run(actions).db;
            var e := FinishTx(db, t, to);
            if t in db.trips && db.trips[t].status == Ongoing then
              var id := db.trips[t].approval;
              && id in db.approvals
              && e.trips == db.trips[t := db.trips[t].(status := to)] && e.vehicles == db.vehicles
              && e.approvals == db.approvals[id := db.approvals[id].(status := if to == Ended then Completed else Approved)]
            else e == db
  {
    EveryRunKeepsInv(actions);
  }

  /** The web start is refused unless the request is approved, its vehicle idle or charging, and the named driver active. */
  lemma StartIsGrantedIff(db: Db, id: Id, driver: Option<bool>)
    ensures StartReply(db, id, driver) == Done <==>
              && id in db.approvals && db.approvals[id].status == Approved && driver != Some(false)
              && exists v :: db.approvals[id].vehicle == Some(v) && v in db.vehicles
                             && (db.vehicles[v].status == Idle || db.vehicles[v].status == Charging)
  {
    if StartReply(db, id, driver) == Done {
      assert db.approvals[id].vehicle == Some(db.approvals[id].vehicle.value);
    }
  }

  ghost predicate OneTripPerVehicle(db: Db) {
    forall t, u ::
      (t in db.trips && u in db.trips && db.trips[t].status == Ongoing && db.trips[u].status == Ongoing
       && db.trips[t].vehicle == db.trips[u].vehicle) ==> t == u
  }

  lemma StepKeepsOneTrip(s: System, a: Action)
    requires OneTripPerVehicle(s.db)
    ensures OneTripPerVehicle(Next(s, a).db)
  {
  }

  lemma {:induction false} EveryRunKeepsOneTrip(actions: seq<Action>)
    ensures OneTripPerVehicle(Run(actions).db)
  {
    if actions != [] {
      EveryRunKeepsOneTrip(actions[..|actions| - 1]);
      StepKeepsOneTrip(Run(actions[..|actions| - 1]), actions[|actions| - 1]);
    }
  }

  /** In every run a vehicle has at most one ongoing trip. */
  lemma VehicleDrivesOneTrip(actions: seq<Action>, t: Id, u: Id)
    requires var trips := Run(actions).db.trips;
             && t in trips && u in trips && trips[t].status == Ongoing && trips[u].status == Ongoing
             && trips[t].vehicle == trips[u].vehicle
    ensures t == u
  {
    EveryRunKeepsOneTrip(actions);
  }

  // ---- new requests

  /** The conflict query finds exactly the other requests that keep the vehicle within 15 minutes of the window. */
  lemma ConflictsAreExactly(db: Db, v: Id, start: int, end: int, exclude: Option<Id>, i: Id)
    ensures i in Conflicts(db, v, start, end, exclude) <==>
              && i in db.approvals && db.approvals[i].vehicle == Some(v) && exclude != Some(i)
              && (db.approvals[i].status == Approved || db.approvals[i].status == InUse || IsPending(db.approvals[i]))
              && db.approvals[i].start - 900 < end && start < db.approvals[i].end + 900
  {
  }

  /** A vehicle is listed exactly when it is idle or charging, not deleted, and free of such requests. */
  lemma ListedIffFree(db: Db, v: Id, start: int, end: int, exclude: Option<Id>)
    ensures v in AvailableVehicles(db, start, end, exclude) <==>
              && v in db.vehicles && !db.vehicles[v].deleted
              && (db.vehicles[v].status == Idle || db.vehicles[v].status == Charging)
              && Conflicts(db, v, start, end, exclude) == {}
  {
    var cs := Conflicts(db, v, start, end, exclude);
    if i :| i in cs {
      assert i in db.approvals;
    } else {
      forall i | i in db.approvals && db.approvals[i].vehicle == Some(v) && Some(i) != exclude
        ensures !(Active(db.approvals[i].status) && Clash(db.approvals[i], start, end))
      {
        assert i !in cs;
      }
    }
  }

  /** A vehicle that a new request can have: there, in service, and free around the window. */
  predicate CanHave(db: Db, v: Id, start: int, end: int) {
    && v in db.vehicles && !db.vehicles[v].deleted
    && db.vehicles[v].status != Maintenance && db.vehicles[v].status != Disabled
    && Conflicts(db, v, start, end, None) == {}
  }

  /** A request is created exactly when its actor may file it, the window is forward, starts no earlier than five
      minutes ago and lasts at most seven days, and vehicle, passengers and approvers can be had. */
  lemma CreationIsGrantedIff(db: Db, d: Draft, now: int)
    ensures CreateReply(db, d, now) == Done <==>
              && (d.actor.user == d.applicant || d.actor.manage) && d.applicantActive
              && d.start < d.end && now - 300 <= d.start && d.end - d.start <= 604800
              && (d.vehicle.Some? ==> CanHave(db, d.vehicle.value, d.start, d.end))
              && d.passengersKnown && d.first.Some? && (d.needsSecond ==> d.second.Some?)
    ensures CreateReply(db, d, now) == Forbidden <==> d.actor.user != d.applicant && !d.actor.manage
  {
    if CreateReply(db, d, now) == Done {
      assert !Has(db, d, now, EndsTooEarly) && !Has(db, d, now, StartsTooEarly) && !Has(db, d, now, TooLong);
      assert !Has(db, d, now, NoSuchVehicle) && !Has(db, d, now, VehicleOut) && !Has(db, d, now, VehicleBusy);
      assert !Has(db, d, now, UnknownPassenger) && !Has(db, d, now, NoApprover) && !Has(db, d, now, NoSecondApprover);
    }
  }

  /** A refused request is answered with a conflict exactly when its vehicle is in service and taken. */
  lemma CreationConflictsIff(db: Db, d: Draft, now: int)
    ensures CreateReply(db, d, now) == Conflict <==>
              && (d.actor.user == d.applicant || d.actor.manage) && d.applicantActive
              && d.start < d.end && d.vehicle.Some? && d.vehicle.value in db.vehicles
              && !db.vehicles[d.vehicle.value].deleted
              && db.vehicles[d.vehicle.value].status != Maintenance && db.vehicles[d.vehicle.value].status != Disabled
              && Conflicts(db, d.vehicle.value, d.start, d.end, None) != {}
  {
    var reply := CreateReply(db, d, now);
    assert Has(db, d, now, VehicleBusy) ==> reply != Done;
  }

  /** A new request waits for its first approver, and then for a second one when that is needed and somebody else. */
  lemma NewRequestAsksInOrder(d: Draft)
    requires d.first.Some?
    ensures var a := CreatedRow(d);
            var two := d.needsSecond && d.second.Some? && d.second != d.first;
            && a.applicant == d.applicant && a.vehicle == d.vehicle && a.start == d.start && a.end == d.end
            && a.status == PendingL1 && a.current == 1 && a.level == |a.steps| == (if two then 2 else 1)
            && a.steps[0] == Step(d.first.value, Waiting)
            && (two ==> a.steps[1] == Step(d.second.value, Waiting))
  {
  }
}
