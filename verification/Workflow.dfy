/** Vehicle requests and the trips made on them: the approval chain, and the two modules that both write
    approvals.status, one through NextStatus and one with a bare update. */
module Workflow {
  import opened Basics

  // ---- the status machine

  datatype Status = PendingL1 | PendingL2 | Approved | Rejected | Cancelled | InUse | Completed | Expired
  datatype Event = Approve | Reject | Cancel | TripStart | TripEnd | TripCancel | Expire

  predicate Pending(s: Status) {
    s.PendingL1? || s.PendingL2?
  }

  /** Statuses whose planned window keeps the vehicle. */
  predicate Active(s: Status) {
    Pending(s) || s.Approved? || s.InUse?
  }

  function NextStatus(status: Status, event: Event, level: int, current: int): Option<Status> {
    match event
    case Approve =>
      if status.PendingL1? && level >= 2 && current < level then Some(PendingL2)
      else if Pending(status) then Some(Approved)
      else None
    case Reject => if Pending(status) then Some(Rejected) else None
    case Cancel => if Pending(status) || status.Approved? then Some(Cancelled) else None
    case TripStart => if status.Approved? then Some(InUse) else None
    case TripEnd => if status.InUse? then Some(Completed) else None
    case TripCancel => if status.InUse? then Some(Approved) else None
    case Expire => if Pending(status) || status.Approved? then Some(Expired) else None
  }

  // ---- rows

  datatype Decision = Waiting | Passed | Refused | Skipped
  datatype Step = Step(approver: Id, decision: Decision)

  /** A request; steps[k] is step number k + 1, and times are in seconds. */
  datatype Approval = Approval(applicant: Id, vehicle: Option<Id>, start: int, end: int,
                               status: Status, level: nat, current: nat, steps: seq<Step>)

  datatype TripStatus = Ongoing | Ended | Voided
  datatype Trip = Trip(approval: Id, vehicle: Id, status: TripStatus)

  datatype VehicleStatus = Idle | Charging | Driving | Maintenance | Disabled
  datatype Vehicle = Vehicle(status: VehicleStatus, deleted: bool)

  datatype Db = Db(vehicles: map<Id, Vehicle>, approvals: map<Id, Approval>, trips: map<Id, Trip>)

  datatype Actor = Actor(user: Id, manage: bool)
  datatype Reply = Done | NotFound | Conflict | BadRequest | Forbidden | Internal

  function Put(db: Db, id: Id, a: Approval): Db {
    db.(approvals := db.approvals[id := a])
  }

  // ---- approval_steps

  predicate HasStep(a: Approval) {
    1 <= a.current <= |a.steps|
  }

  /** UPDATE of the current step, which touches no row when there is no such step. */
  function Decide(a: Approval, d: Decision): seq<Step> {
    if HasStep(a) then a.steps[a.current - 1 := a.steps[a.current - 1].(decision := d)] else a.steps
  }

  function SkipWaiting(steps: seq<Step>): (r: seq<Step>)
    ensures |r| == |steps|
    ensures forall k :: 0 <= k < |r| ==>
      r[k] == if steps[k].decision.Waiting? then steps[k].(decision := Skipped) else steps[k]
  {
    seq(|steps|, k requires 0 <= k < |steps| =>
      if steps[k].decision.Waiting? then steps[k].(decision := Skipped) else steps[k])
  }

  // ---- the transactions on a request

  /** One approver, or two when the second level is needed and names somebody else. */
  function Approvers(first: Id, second: Option<Id>): seq<Id> {
    if second.None? || second.value == first then [first] else [first, second.value]
  }

  function NewApproval(applicant: Id, vehicle: Option<Id>, start: int, end: int, approvers: seq<Id>): Approval {
    Approval(applicant, vehicle, start, end, PendingL1, Max(1, |approvers|), 1,
             seq(|approvers|, k requires 0 <= k < |approvers| => Step(approvers[k], Waiting)))
  }

  predicate Unusable(v: Vehicle) {
    v.status.Maintenance? || v.status.Disabled?
  }

  predicate Exists(db: Db, v: Id) {
    v in db.vehicles && !db.vehicles[v].deleted
  }

  /** What the checks before a (re)assignment answer; busy is what the conflict query found. */
  function AssignReply(db: Db, a: Approval, actor: Actor, v: Id, busy: bool): Reply {
    if a.vehicle.Some? && !actor.manage then Forbidden
    else if !Exists(db, v) then BadRequest
    else if Unusable(db.vehicles[v]) then Conflict
    else if busy then Conflict
    else Done
  }

  function ApproveReply(db: Db, id: Id, actor: Actor, vehicle: Option<Id>, busy: bool): Reply {
    if id !in db.approvals then NotFound
    else
      var a := db.approvals[id];
      if NextStatus(a.status, Approve, a.level, a.current).None? then Conflict
      else if !HasStep(a) then Internal
      else if a.steps[a.current - 1].approver != actor.user && !actor.manage then Forbidden
      else if a.vehicle.None? && vehicle.None? then BadRequest
      else if vehicle.Some? && vehicle != a.vehicle then AssignReply(db, a, actor, vehicle.value, busy)
      else Done
  }

  function ApprovedRow(a: Approval, vehicle: Option<Id>): Approval
    requires NextStatus(a.status, Approve, a.level, a.current).Some?
  {
    var next := NextStatus(a.status, Approve, a.level, a.current).value;
    a.(status := next, steps := Decide(a, Passed),
       current := if next.PendingL2? then a.current + 1 else a.current,
       vehicle := if vehicle.Some? then vehicle else a.vehicle)
  }

  function ApproveTx(db: Db, id: Id, actor: Actor, vehicle: Option<Id>, busy: bool): Db {
    if ApproveReply(db, id, actor, vehicle, busy) != Done then db
    else Put(db, id, ApprovedRow(db.approvals[id], vehicle))
  }

  function RejectReply(db: Db, id: Id, actor: Actor): Reply {
    if id !in db.approvals then NotFound
    else
      var a := db.approvals[id];
      if NextStatus(a.status, Reject, a.level, a.current).None? then Conflict
      else if HasStep(a) && a.steps[a.current - 1].approver != actor.user && !actor.manage then Forbidden
      else Done
  }

  function RejectTx(db: Db, id: Id, actor: Actor): Db {
    if RejectReply(db, id, actor) != Done then db
    else
      var a := db.approvals[id];
      Put(db, id, a.(status := Rejected, steps := SkipWaiting(Decide(a, Refused))))
  }

  predicate HasOngoing(db: Db, id: Id) {
    exists t :: t in db.trips && db.trips[t].approval == id && db.trips[t].status.Ongoing?
  }

  function CancelReply(db: Db, id: Id, actor: Actor): Reply {
    if id !in db.approvals then NotFound
    else
      var a := db.approvals[id];
      if a.applicant != actor.user && !actor.manage then Forbidden
      else if NextStatus(a.status, Cancel, a.level, a.current).None? then Conflict
      else if HasOngoing(db, id) then Conflict
      else Done
  }

  function CancelTx(db: Db, id: Id, actor: Actor): Db {
    if CancelReply(db, id, actor) != Done then db
    else
      var a := db.approvals[id];
      Put(db, id, a.(status := Cancelled, steps := SkipWaiting(a.steps)))
  }

  const GRACE := 2 * 3600

  predicate Stale(a: Approval, now: int) {
    (Pending(a.status) || a.status.Approved?) && a.end + GRACE < now
  }

  function ExpiredRow(a: Approval, now: int): Approval {
    if Stale(a, now) then a.(status := Expired, steps := SkipWaiting(a.steps)) else a
  }

  function ExpireTx(db: Db, now: int): Db {
    db.(approvals := map i | i in db.approvals :: ExpiredRow(db.approvals[i], now))
  }

  // ---- the transactions on a trip

  /** MarkStatus: no look at the status that stood there. */
  function MarkStatus(db: Db, id: Id, status: Status): Db {
    if id in db.approvals then Put(db, id, db.approvals[id].(status := status)) else db
  }

  /** The unique index on ongoing trips of one vehicle. */
  predicate VehicleTaken(db: Db, v: Id) {
    exists t :: t in db.trips && db.trips[t].vehicle == v && db.trips[t].status.Ongoing?
  }

  function OpenReply(db: Db, id: Id, v: Id): Reply {
    if id !in db.approvals then NotFound
    else if !db.approvals[id].status.Approved? then Conflict
    else if VehicleTaken(db, v) then Conflict
    else Done
  }

  /** The row is inserted with the vehicle the caller read before the transaction. */
  function OpenTx(db: Db, t: Id, id: Id, v: Id): Db
    requires t !in db.trips
  {
    if OpenReply(db, id, v) != Done then db
    else MarkStatus(db.(trips := db.trips[t := Trip(id, v, Ongoing)]), id, InUse)
  }

  predicate IsOngoing(db: Db, t: Id) {
    t in db.trips && db.trips[t].status.Ongoing?
  }

  /** What a start answers before its transaction; the driver, when one is named, must be an active user. */
  function StartReply(db: Db, id: Id, driverActive: Option<bool>): Reply {
    if id !in db.approvals then NotFound
    else
      var a := db.approvals[id];
      if !a.status.Approved? || a.vehicle.None? || a.vehicle.value !in db.vehicles then Conflict
      else if !db.vehicles[a.vehicle.value].status.Idle? && !db.vehicles[a.vehicle.value].status.Charging? then Conflict
      else if driverActive == Some(false) then BadRequest
      else Done
  }

  /** Close and cancel: flip the trip if it is ongoing, then mark the approval. */
  function FinishTx(db: Db, t: Id, to: TripStatus): Db
    requires !to.Ongoing?
  {
    if !IsOngoing(db, t) then db
    else MarkStatus(db.(trips := db.trips[t := db.trips[t].(status := to)]), db.trips[t].approval,
                    if to.Ended? then Completed else Approved)
  }

  // ---- every interleaving

  /** The tables, and the trip starts that have read a request and its vehicle and not yet opened the trip. */
  datatype System = System(db: Db, starting: set<(Id, Id)>)

  datatype Action =
    | DoInsert(id: Id, applicant: Id, vehicle: Option<Id>, start: int, end: int, first: Id, second: Option<Id>)
    | DoApprove(id: Id, actor: Actor, vehicle: Option<Id>, busy: bool)
    | DoReject(id: Id, actor: Actor)
    | DoCancel(id: Id, actor: Actor)
    | DoExpire(now: int)
    | DoReadForStart(id: Id)
    | DoOpen(trip: Id, id: Id, drives: Id)
    | DoFinish(trip: Id, to: TripStatus)
    | DoSetVehicle(which: Id, row: Vehicle)

  predicate Enabled(s: System, a: Action) {
    match a
    case DoInsert(id, _, _, _, _, _, _) => id !in s.db.approvals
    case DoReadForStart(id) => id in s.db.approvals && s.db.approvals[id].status.Approved? && s.db.approvals[id].vehicle.Some?
    case DoOpen(t, id, v) => t !in s.db.trips && (id, v) in s.starting
    case DoFinish(_, to) => !to.Ongoing?
    case _ => true
  }

  function Next(s: System, a: Action): System {
    if !Enabled(s, a) then s
    else match a
      case DoInsert(id, applicant, vehicle, start, end, first, second) =>
        s.(db := Put(s.db, id, NewApproval(applicant, vehicle, start, end, Approvers(first, second))))
      case DoApprove(id, actor, vehicle, busy) => s.(db := ApproveTx(s.db, id, actor, vehicle, busy))
      case DoReject(id, actor) => s.(db := RejectTx(s.db, id, actor))
      case DoCancel(id, actor) => s.(db := CancelTx(s.db, id, actor))
      case DoExpire(now) => s.(db := ExpireTx(s.db, now))
      case DoReadForStart(id) => s.(starting := s.starting + {(id, s.db.approvals[id].vehicle.value)})
      case DoOpen(t, id, v) => System(OpenTx(s.db, t, id, v), s.starting - {(id, v)})
      case DoFinish(t, to) => s.(db := FinishTx(s.db, t, to))
      case DoSetVehicle(v, row) => s.(db := s.db.(vehicles := s.db.vehicles[v := row]))
  }

  const EMPTY: System := System(Db(map[], map[], map[]), {})

  function Run(actions: seq<Action>): System {
    if actions == [] then EMPTY
    else Next(Run(actions[..|actions| - 1]), actions[|actions| - 1])
  }

  // ---- what every interleaving keeps

  predicate AllAre(steps: seq<Step>, lo: nat, hi: nat, d: Decision) {
    forall k :: lo <= k < hi && k < |steps| ==> steps[k].decision == d
  }

  /** How a request's steps tell its status. */
  predicate StepsFit(a: Approval) {
    && 1 <= a.current <= a.level <= 2 && |a.steps| == a.level
    && (a.current > 1 ==> a.vehicle.Some?)
    && match a.status
       case PendingL1 => a.current == 1 && AllAre(a.steps, 0, a.level, Waiting)
       case PendingL2 => a.current == 2 && AllAre(a.steps, 0, 1, Passed) && AllAre(a.steps, 1, 2, Waiting)
       case Approved => a.current == a.level && AllAre(a.steps, 0, a.level, Passed) && a.vehicle.Some?
       case InUse => a.current == a.level && AllAre(a.steps, 0, a.level, Passed) && a.vehicle.Some?
       case Completed => a.current == a.level && AllAre(a.steps, 0, a.level, Passed) && a.vehicle.Some?
       case Rejected =>
         && AllAre(a.steps, 0, a.current - 1, Passed)
         && a.steps[a.current - 1].decision == Refused
         && AllAre(a.steps, a.current, a.level, Skipped)
       case Cancelled => StoppedEarly(a)
       case Expired => StoppedEarly(a)
  }

  // Withdrawn or expired: passed up to some step, skipped from there on.
  predicate StoppedEarly(a: Approval)
    requires 1 <= a.current <= a.level && |a.steps| == a.level
  {
    && AllAre(a.steps, 0, a.current - 1, Passed)
    && (a.steps[a.current - 1].decision.Passed? ==> a.current == a.level && a.vehicle.Some?)
    && (a.steps[a.current - 1].decision.Passed? || AllAre(a.steps, a.current - 1, a.level, Skipped))
  }

  ghost predicate AllStepsFit(db: Db) {
    forall i :: i in db.approvals ==> StepsFit(db.approvals[i])
  }

  /** A trip stands on a request that was approved, and drives that request's vehicle. */
  ghost predicate TripsStand(db: Db) {
    forall t :: t in db.trips ==>
      && db.trips[t].approval in db.approvals
      && db.approvals[db.trips[t].approval].vehicle == Some(db.trips[t].vehicle)
      && !Pending(db.approvals[db.trips[t].approval].status)
  }

  ghost predicate TripWith(db: Db, id: Id, status: TripStatus, t: Id) {
    t in db.trips && db.trips[t].approval == id && db.trips[t].status == status
  }

  ghost predicate ExactlyOne(db: Db, id: Id, status: TripStatus) {
    && (exists t :: TripWith(db, id, status, t))
    && (forall t, u :: TripWith(db, id, status, t) && TripWith(db, id, status, u) ==> t == u)
  }

  ghost predicate MarkedWhenThere(db: Db, status: TripStatus, marked: Status) {
    forall t :: t in db.trips && db.trips[t].status == status && db.trips[t].approval in db.approvals ==>
      db.approvals[db.trips[t].approval].status == marked
  }

  ghost predicate ThereWhenMarked(db: Db, status: TripStatus, marked: Status) {
    forall i :: i in db.approvals && db.approvals[i].status == marked ==> exists t :: TripWith(db, i, status, t)
  }

  ghost predicate NeverTwo(db: Db, status: TripStatus) {
    forall t, u ::
      (t in db.trips && u in db.trips && db.trips[t].status == status && db.trips[u].status == status
       && db.trips[t].approval == db.trips[u].approval) ==> t == u
  }

  /** The trip in the given status is there exactly when the request's status says so, and only once. */
  ghost predicate Mirrors(db: Db, status: TripStatus, marked: Status) {
    MarkedWhenThere(db, status, marked) && ThereWhenMarked(db, status, marked) && NeverTwo(db, status)
  }

  /** What a start has read stays true until it opens its trip. */
  ghost predicate StartsStand(s: System) {
    forall p :: p in s.starting ==>
      && p.0 in s.db.approvals && s.db.approvals[p.0].vehicle == Some(p.1) && !Pending(s.db.approvals[p.0].status)
  }

  ghost predicate Inv(s: System) {
    && AllStepsFit(s.db) && TripsStand(s.db) && StartsStand(s)
    && Mirrors(s.db, Ongoing, InUse) && Mirrors(s.db, Ended, Completed)
  }

  // ---- proofs: one request is rewritten and no trip is

  predicate Quiet(s: Status) {
    !s.InUse? && !s.Completed?
  }

  lemma RewriteKeepsInv(s: System, id: Id, row: Approval)
    requires Inv(s) && id in s.db.approvals && StepsFit(row)
    requires var a := s.db.approvals[id];
             && Quiet(a.status) && Quiet(row.status)
             && (row.vehicle == a.vehicle || Pending(a.status))
             && (Pending(row.status) ==> Pending(a.status))
    ensures Inv(s.(db := Put(s.db, id, row)))
  {
    PutKeepsMirror(s.db, id, row, Ongoing, InUse);
    PutKeepsMirror(s.db, id, row, Ended, Completed);
    RewriteKeepsRows(s, id, row);
  }

  lemma RewriteKeepsRows(s: System, id: Id, row: Approval)
    requires TripsStand(s.db) && StartsStand(s) && id in s.db.approvals
    requires var a := s.db.approvals[id];
             && (row.vehicle == a.vehicle || Pending(a.status))
             && (Pending(row.status) ==> Pending(a.status))
    ensures TripsStand(Put(s.db, id, row)) && StartsStand(s.(db := Put(s.db, id, row)))
  {
  }

  lemma InsertKeepsInv(s: System, id: Id, row: Approval)
    requires Inv(s) && id !in s.db.approvals && StepsFit(row) && row.status.PendingL1?
    ensures Inv(s.(db := Put(s.db, id, row)))
  {
    PutKeepsMirror(s.db, id, row, Ongoing, InUse);
    PutKeepsMirror(s.db, id, row, Ended, Completed);
  }

  // The row written is not in the marked status, and neither is the one it replaces.
  lemma PutKeepsMirror(db: Db, id: Id, row: Approval, status: TripStatus, marked: Status)
    requires TripsStand(db) && Mirrors(db, status, marked)
    requires (id in db.approvals ==> db.approvals[id].status != marked) && row.status != marked
    ensures Mirrors(Put(db, id, row), status, marked)
  {
    var e := Put(db, id, row);
    forall i | i in e.approvals && e.approvals[i].status == marked ensures exists t :: TripWith(e, i, status, t) {
      var t :| TripWith(db, i, status, t);
      assert TripWith(e, i, status, t);
    }
  }

  lemma ApproveFits(a: Approval, vehicle: Option<Id>)
    requires StepsFit(a) && NextStatus(a.status, Approve, a.level, a.current).Some?
    requires a.vehicle.Some? || vehicle.Some?
    ensures StepsFit(ApprovedRow(a, vehicle))
  {
  }

  lemma RejectFits(a: Approval)
    requires StepsFit(a) && Pending(a.status)
    ensures StepsFit(a.(status := Rejected, steps := SkipWaiting(Decide(a, Refused))))
  {
  }

  lemma StopFits(a: Approval, to: Status)
    requires StepsFit(a) && (Pending(a.status) || a.status.Approved?) && (to.Cancelled? || to.Expired?)
    ensures StepsFit(a.(status := to, steps := SkipWaiting(a.steps)))
  {
  }

  lemma ApproveKeepsInv(s: System, id: Id, actor: Actor, vehicle: Option<Id>, busy: bool)
    requires Inv(s)
    ensures Inv(Next(s, DoApprove(id, actor, vehicle, busy)))
  {
    if ApproveReply(s.db, id, actor, vehicle, busy).Done? {
      ApproveFits(s.db.approvals[id], vehicle);
      RewriteKeepsInv(s, id, ApprovedRow(s.db.approvals[id], vehicle));
    }
  }

  lemma RejectKeepsInv(s: System, id: Id, actor: Actor)
    requires Inv(s)
    ensures Inv(Next(s, DoReject(id, actor)))
  {
    if RejectReply(s.db, id, actor).Done? {
      var a := s.db.approvals[id];
      RejectFits(a);
      RewriteKeepsInv(s, id, a.(status := Rejected, steps := SkipWaiting(Decide(a, Refused))));
    }
  }

  lemma CancelKeepsInv(s: System, id: Id, actor: Actor)
    requires Inv(s)
    ensures Inv(Next(s, DoCancel(id, actor)))
  {
    if CancelReply(s.db, id, actor).Done? {
      var a := s.db.approvals[id];
      StopFits(a, Cancelled);
      RewriteKeepsInv(s, id, a.(status := Cancelled, steps := SkipWaiting(a.steps)));
    }
  }

  lemma ExpireKeepsInv(s: System, now: int)
    requires Inv(s)
    ensures Inv(Next(s, DoExpire(now)))
  {
    ExpiredFit(s.db, now);
    ExpireKeepsRows(s, now);
    ExpireKeepsMirror(s.db, now, Ongoing, InUse);
    ExpireKeepsMirror(s.db, now, Ended, Completed);
  }

  lemma ExpireKeepsRows(s: System, now: int)
    requires TripsStand(s.db) && StartsStand(s)
    ensures TripsStand(ExpireTx(s.db, now)) && StartsStand(s.(db := ExpireTx(s.db, now)))
  {
  }

  lemma ExpiredFit(db: Db, now: int)
    requires AllStepsFit(db)
    ensures AllStepsFit(ExpireTx(db, now))
  {
    forall i | i in db.approvals && Stale(db.approvals[i], now) ensures StepsFit(ExpiredRow(db.approvals[i], now)) {
      StopFits(db.approvals[i], Expired);
    }
  }

  lemma ExpireKeepsMirror(db: Db, now: int, status: TripStatus, marked: Status)
    requires Mirrors(db, status, marked) && (marked.InUse? || marked.Completed?)
    ensures Mirrors(ExpireTx(db, now), status, marked)
  {
    var e := ExpireTx(db, now);
    forall i | i in e.approvals && e.approvals[i].status == marked ensures exists t :: TripWith(e, i, status, t) {
      var t :| TripWith(db, i, status, t);
      assert TripWith(e, i, status, t);
    }
  }

  // ---- proofs: a trip and its request change together

  /** A trip row and the mark on its request, written together. */
  function WithTrip(db: Db, t: Id, row: Trip, marked: Status): Db
    requires row.approval in db.approvals
  {
    db.(trips := db.trips[t := row],
        approvals := db.approvals[row.approval := db.approvals[row.approval].(status := marked)])
  }

  // The trip enters the status its request is now marked with.
  lemma EnterMirror(db: Db, t: Id, row: Trip, marked: Status)
    requires row.approval in db.approvals
    requires Mirrors(db, row.status, marked) && db.approvals[row.approval].status != marked
    requires t in db.trips ==> db.trips[t].approval == row.approval && db.trips[t].status != row.status
    ensures Mirrors(WithTrip(db, t, row, marked), row.status, marked)
  {
    var e := WithTrip(db, t, row, marked);
    forall i | i in e.approvals && e.approvals[i].status == marked ensures exists u :: TripWith(e, i, row.status, u) {
      if i == row.approval {
        assert TripWith(e, i, row.status, t);
      } else {
        var u :| TripWith(db, i, row.status, u);
        assert TripWith(e, i, row.status, u);
      }
    }
  }

  // The trip leaves a status together with its request.
  lemma LeaveMirror(db: Db, t: Id, row: Trip, status: TripStatus, from: Status, marked: Status)
    requires t in db.trips && row.approval == db.trips[t].approval && row.approval in db.approvals
    requires Mirrors(db, status, from) && db.trips[t].status == status && row.status != status && marked != from
    ensures Mirrors(WithTrip(db, t, row, marked), status, from)
  {
    var e := WithTrip(db, t, row, marked);
    forall i | i in e.approvals && e.approvals[i].status == from ensures exists u :: TripWith(e, i, status, u) {
      var u :| TripWith(db, i, status, u);
      assert TripWith(e, i, status, u);
    }
  }

  // Neither the trip nor its request is or comes in the status looked at.
  lemma PassMirror(db: Db, t: Id, row: Trip, status: TripStatus, from: Status, marked: Status)
    requires row.approval in db.approvals && Mirrors(db, status, from)
    requires t in db.trips ==> db.trips[t].approval == row.approval && db.trips[t].status != status
    requires row.status != status && marked != from && db.approvals[row.approval].status != from
    ensures Mirrors(WithTrip(db, t, row, marked), status, from)
  {
    PassStillThere(db, t, row, status, from, marked);
  }

  lemma PassStillThere(db: Db, t: Id, row: Trip, status: TripStatus, from: Status, marked: Status)
    requires row.approval in db.approvals && ThereWhenMarked(db, status, from)
    requires (t in db.trips ==> db.trips[t].status != status) && marked != from
    ensures ThereWhenMarked(WithTrip(db, t, row, marked), status, from)
  {
    var e := WithTrip(db, t, row, marked);
    forall i | i in e.approvals && e.approvals[i].status == from ensures exists u :: TripWith(e, i, status, u) {
      var u :| TripWith(db, i, status, u);
      assert TripWith(e, i, status, u);
    }
  }

  lemma WithTripKeepsRows(s: System, t: Id, row: Trip, marked: Status)
    requires TripsStand(s.db) && StartsStand(s) && AllStepsFit(s.db) && row.approval in s.db.approvals
    requires var a := s.db.approvals[row.approval];
             a.vehicle == Some(row.vehicle) && (a.status.Approved? || a.status.InUse?)
    requires marked.Approved? || marked.InUse? || marked.Completed?
    ensures var u := s.(db := WithTrip(s.db, t, row, marked)); TripsStand(u.db) && StartsStand(u) && AllStepsFit(u.db)
  {
  }

  lemma OpenKeepsInv(s: System, t: Id, id: Id, v: Id)
    requires Inv(s) && t !in s.db.trips && (id, v) in s.starting
    ensures Inv(Next(s, DoOpen(t, id, v)))
  {
    var row := Trip(id, v, Ongoing);
    if OpenReply(s.db, id, v).Done? {
      WithTripKeepsRows(s, t, row, InUse);
      EnterMirror(s.db, t, row, InUse);
      PassMirror(s.db, t, row, Ended, Completed, InUse);
      assert OpenTx(s.db, t, id, v) == WithTrip(s.db, t, row, InUse);
    }
  }

  lemma FinishKeepsInv(s: System, t: Id, to: TripStatus)
    requires Inv(s) && !to.Ongoing?
    ensures Inv(Next(s, DoFinish(t, to)))
  {
    var db := s.db;
    if IsOngoing(db, t) {
      var row, marked := db.trips[t].(status := to), if to.Ended? then Completed else Approved;
      WithTripKeepsRows(s, t, row, marked);
      LeaveMirror(db, t, row, Ongoing, InUse, marked);
      if to.Ended? {
        EnterMirror(db, t, row, Completed);
      } else {
        PassMirror(db, t, row, Ended, Completed, marked);
      }
      assert FinishTx(db, t, to) == WithTrip(db, t, row, marked);
    }
  }

  // ---- what holds in every run

  lemma StepKeepsInv(s: System, a: Action)
    requires Inv(s)
    ensures Inv(Next(s, a))
  {
    if Enabled(s, a) {
      match a
      case DoInsert(id, applicant, vehicle, start, end, first, second) =>
        InsertKeepsInv(s, id, NewApproval(applicant, vehicle, start, end, Approvers(first, second)));
      case DoApprove(id, actor, vehicle, busy) => ApproveKeepsInv(s, id, actor, vehicle, busy);
      case DoReject(id, actor) => RejectKeepsInv(s, id, actor);
      case DoCancel(id, actor) => CancelKeepsInv(s, id, actor);
      case DoExpire(now) => ExpireKeepsInv(s, now);
      case DoReadForStart(id) =>
      case DoOpen(t, id, v) => OpenKeepsInv(s, t, id, v);
      case DoFinish(t, to) => FinishKeepsInv(s, t, to);
      case DoSetVehicle(v, row) => VehiclesDoNotMatter(s, v, row);
    }
  }

  lemma VehiclesDoNotMatter(s: System, v: Id, row: Vehicle)
    requires Inv(s)
    ensures Inv(Next(s, DoSetVehicle(v, row)))
  {
    var db, e := s.db, Next(s, DoSetVehicle(v, row)).db;
    assert forall i, st, t :: TripWith(e, i, st, t) == TripWith(db, i, st, t);
  }

  lemma {:induction false} EveryRunKeepsInv(actions: seq<Action>)
    ensures Inv(Run(actions))
  {
    if actions != [] {
      EveryRunKeepsInv(actions[..|actions| - 1]);
      StepKeepsInv(Run(actions[..|actions| - 1]), actions[|actions| - 1]);
    }
  }

  /** A request is in_use exactly when one ongoing trip stands on it, and completed exactly when one ended trip does. */
  lemma StatusMirrorsTrips(actions: seq<Action>, id: Id)
    requires id in Run(actions).db.approvals
    ensures var db := Run(actions).db;
            && (db.approvals[id].status.InUse? <==> ExactlyOne(db, id, Ongoing))
            && (db.approvals[id].status.Completed? <==> ExactlyOne(db, id, Ended))
            && (HasOngoing(db, id) <==> db.approvals[id].status.InUse?)
  {
    EveryRunKeepsInv(actions);
    var db := Run(actions).db;
    assert forall st, t :: TripWith(db, id, st, t) ==> t in db.trips;
  }

  /** A trip drives the vehicle of the request it stands on, whenever the caller read it. */
  lemma TripDrivesTheRequestsVehicle(actions: seq<Action>, t: Id)
    requires t in Run(actions).db.trips
    ensures var db := Run(actions).db;
            var trip := db.trips[t];
            trip.approval in db.approvals && db.approvals[trip.approval].vehicle == Some(trip.vehicle)
  {
    EveryRunKeepsInv(actions);
  }

  /** The steps of every request agree with its status. */
  lemma StepsTellTheStatus(actions: seq<Action>, id: Id)
    requires id in Run(actions).db.approvals
    ensures StepsFit(Run(actions).db.approvals[id])
  {
    EveryRunKeepsInv(actions);
  }

  /** The event an action stands for. */
  function EventOf(a: Action): Option<Event> {
    match a
    case DoApprove(_, _, _, _) => Some(Approve)
    case DoReject(_, _) => Some(Reject)
    case DoCancel(_, _) => Some(Cancel)
    case DoExpire(_) => Some(Expire)
    case DoOpen(_, _, _) => Some(TripStart)
    case DoFinish(_, to) => if to.Ended? then Some(TripEnd) else Some(TripCancel)
    case _ => None
  }

  /** An approval is given by the approver of the current step or a manager, passes exactly that step, changes a
      vehicle once chosen only for a manager, and is the last one exactly when no step is left. */
  lemma ApprovalPassesOneStep(db: Db, id: Id, actor: Actor, vehicle: Option<Id>, busy: bool)
    requires AllStepsFit(db) && ApproveReply(db, id, actor, vehicle, busy).Done?
    ensures var e := ApproveTx(db, id, actor, vehicle, busy);
            var a, k := db.approvals[id], db.approvals[id].current - 1;
            && id in e.approvals
            && var b := e.approvals[id];
               && (a.steps[k].approver == actor.user || actor.manage)
               && a.steps[k].decision.Waiting? && b.steps == a.steps[k := Step(a.steps[k].approver, Passed)]
               && b.vehicle.Some? && (vehicle.Some? ==> b.vehicle == vehicle)
               && (a.vehicle.Some? && b.vehicle != a.vehicle ==> actor.manage)
               && (b.status.Approved? <==> k + 1 == |a.steps|)
               && (b.status.PendingL2? <==> k + 1 < |a.steps|)
               && b.start == a.start && b.end == a.end && b.applicant == a.applicant
    ensures var e := ApproveTx(db, id, actor, vehicle, busy);
            e.trips == db.trips && e.vehicles == db.vehicles && e.approvals - {id} == db.approvals - {id}
  {
    assert StepsFit(db.approvals[id]);
  }

  /** A rejection is given by the approver of the current step or a manager; it refuses that step, skips the rest,
      and leaves everything else. */
  lemma RejectionRefusesOneStep(db: Db, id: Id, actor: Actor)
    requires AllStepsFit(db) && RejectReply(db, id, actor).Done?
    ensures var e := RejectTx(db, id, actor);
            var a, k := db.approvals[id], db.approvals[id].current - 1;
            && (a.steps[k].approver == actor.user || actor.manage)
            && e == Put(db, id, a.(status := Rejected, steps := e.approvals[id].steps))
            && |e.approvals[id].steps| == |a.steps|
            && forall j :: 0 <= j < |a.steps| ==>
                 e.approvals[id].steps[j] == a.steps[j].(decision := if j < k then Passed else if j == k then Refused else Skipped)
  {
    assert StepsFit(db.approvals[id]);
  }

  /** Expiry ends exactly the requests that are pending or approved and over for two hours, with no step of theirs
      left waiting and every decided step as it was; it leaves no other row changed and none still to expire. */
  lemma ExpiryEndsExactlyTheStale(db: Db, now: int)
    ensures var e := ExpireTx(db, now);
            && e.trips == db.trips && e.vehicles == db.vehicles && e.approvals.Keys == db.approvals.Keys
            && forall i :: i in db.approvals ==>
                 var a, b := db.approvals[i], e.approvals[i];
                 && (b != a ==> b.status.Expired?)
                 && (b.status.Expired? && !a.status.Expired? <==>
                       (Pending(a.status) || a.status.Approved?) && a.end + 7200 < now)
                 && (b.status.Expired? && !a.status.Expired? ==>
                       && b == a.(status := Expired, steps := b.steps) && |b.steps| == |a.steps|
                       && forall k :: 0 <= k < |b.steps| ==>
                            !b.steps[k].decision.Waiting? && (b.steps[k] == a.steps[k] || a.steps[k].decision.Waiting?))
                 && !Stale(b, now)
  {
  }

  /** Closing or cancelling a trip finds its request in_use, so the mark never hits anything else. */
  lemma FinishFindsInUse(s: System, t: Id)
    requires Inv(s) && IsOngoing(s.db, t)
    ensures s.db.trips[t].approval in s.db.approvals && s.db.approvals[s.db.trips[t].approval].status.InUse?
  {
  }

  /** Every write of a status, the bare MarkStatus included, is one that NextStatus allows for that event. */
  lemma EveryStatusWriteIsATransition(s: System, a: Action, id: Id)
    requires Inv(s) && id in s.db.approvals
    ensures id in Next(s, a).db.approvals
    ensures var before, after := s.db.approvals[id], Next(s, a).db.approvals[id];
            before.status == after.status ||
            (EventOf(a).Some? && NextStatus(before.status, EventOf(a).value, before.level, before.current) == Some(after.status))
  {
    if a.DoFinish? && IsOngoing(s.db, a.trip) {
      FinishFindsInUse(s, a.trip);
      FinishWritesATransition(s, a.trip, a.to, id);
    } else {
      GuardedWrites(s, a, id);
    }
  }

  lemma GuardedWrites(s: System, a: Action, id: Id)
    requires id in s.db.approvals && !(a.DoFinish? && IsOngoing(s.db, a.trip))
    ensures id in Next(s, a).db.approvals
    ensures var before, after := s.db.approvals[id], Next(s, a).db.approvals[id];
            before.status == after.status ||
            (EventOf(a).Some? && NextStatus(before.status, EventOf(a).value, before.level, before.current) == Some(after.status))
  {
  }

  lemma FinishWritesATransition(s: System, t: Id, to: TripStatus, id: Id)
    requires id in s.db.approvals && IsOngoing(s.db, t)
    requires s.db.trips[t].approval in s.db.approvals && s.db.approvals[s.db.trips[t].approval].status.InUse?
    ensures id in Next(s, DoFinish(t, to)).db.approvals
    ensures var before, after := s.db.approvals[id], Next(s, DoFinish(t, to)).db.approvals[id];
            before.status == after.status ||
            NextStatus(before.status, if to.Ended? then TripEnd else TripCancel, before.level, before.current) == Some(after.status)
  {
  }

  /** The ongoing-trip check in a withdrawal can never be the one that refuses it: the status already did. */
  lemma WithdrawalNeedsNoTripCheck(s: System, id: Id)
    requires Inv(s) && id in s.db.approvals && HasOngoing(s.db, id)
    ensures var a := s.db.approvals[id]; NextStatus(a.status, Cancel, a.level, a.current).None?
  {
  }

  // ---- windows, when requests are served one at a time

  const MARGIN := 15 * 60

  predicate Clash(a: Approval, start: int, end: int) {
    a.start < end + MARGIN && a.end > start - MARGIN
  }

  function Conflicts(db: Db, v: Id, start: int, end: int, exclude: Option<Id>): set<Id> {
    set i | i in db.approvals && db.approvals[i].vehicle == Some(v) && Some(i) != exclude
            && Active(db.approvals[i].status) && Clash(db.approvals[i], start, end)
  }

  function AvailableVehicles(db: Db, start: int, end: int, exclude: Option<Id>): set<Id> {
    set v | v in db.vehicles && !db.vehicles[v].deleted && (db.vehicles[v].status.Idle? || db.vehicles[v].status.Charging?)
            && !exists i :: i in db.approvals && db.approvals[i].vehicle == Some(v) && Some(i) != exclude
                            && Active(db.approvals[i].status) && Clash(db.approvals[i], start, end)
  }

  /** A new request as it arrives; the approvers and the level-2 rules are looked up elsewhere. */
  datatype Draft = Draft(actor: Actor, applicant: Id, applicantActive: bool, vehicle: Option<Id>, start: int, end: int,
                         passengersKnown: bool, first: Option<Id>, needsSecond: bool, second: Option<Id>)

  datatype Problem = EndsTooEarly | StartsTooEarly | TooLong | NoSuchVehicle | VehicleOut | VehicleBusy
                   | UnknownPassenger | NoApprover | NoSecondApprover

  const PAST_TOLERANCE := 5 * 60
  const MAX_DURATION := 7 * 24 * 3600

  predicate Has(db: Db, d: Draft, now: int, p: Problem) {
    match p
    case EndsTooEarly => d.end <= d.start
    case StartsTooEarly => d.start < now - PAST_TOLERANCE
    case TooLong => d.end - d.start > MAX_DURATION
    case NoSuchVehicle => d.vehicle.Some? && !Exists(db, d.vehicle.value)
    case VehicleOut => d.vehicle.Some? && Exists(db, d.vehicle.value) && Unusable(db.vehicles[d.vehicle.value])
    case VehicleBusy =>
      && d.vehicle.Some? && Exists(db, d.vehicle.value) && !Unusable(db.vehicles[d.vehicle.value])
      && d.start < d.end && Conflicts(db, d.vehicle.value, d.start, d.end, None) != {}
    case UnknownPassenger => !d.passengersKnown
    case NoApprover => d.first.None?
    case NoSecondApprover => d.first.Some? && d.needsSecond && d.second.None?
  }

  ghost function CreateReply(db: Db, d: Draft, now: int): (r: Reply)
    ensures r.Done? ==> d.first.Some?
  {
    if d.applicant != d.actor.user && !d.actor.manage then Forbidden
    else if !d.applicantActive then BadRequest
    else if forall p :: !Has(db, d, now, p) then assert !Has(db, d, now, NoApprover); Done
    else if Has(db, d, now, VehicleBusy) then Conflict
    else BadRequest
  }

  function CreatedRow(d: Draft): Approval
    requires d.first.Some?
  {
    NewApproval(d.applicant, d.vehicle, d.start, d.end,
                Approvers(d.first.value, if d.needsSecond then d.second else None))
  }

  datatype Request =
    | Creating(newId: Id, draft: Draft, now: int)
    | Approving(id: Id, actor: Actor, vehicle: Option<Id>)
    | Starting(trip: Id, id: Id, driverActive: Option<bool>)
    | Other(action: Action)

  /** One request served from beginning to end, its conflict query answered from the tables as they are. */
  ghost function Serve(db: Db, q: Request): Db {
    var s := System(db, {});
    match q
    case Creating(id, d, now) =>
      if CreateReply(db, d, now).Done? && id !in db.approvals then Put(db, id, CreatedRow(d)) else db
    case Approving(id, actor, vehicle) =>
      ApproveTx(db, id, actor, vehicle, BusyFor(db, id, vehicle))
    case Starting(t, id, driver) =>
      if StartReply(db, id, driver).Done? && t !in db.trips then OpenTx(db, t, id, db.approvals[id].vehicle.value) else db
    case Other(a) =>
      if a.DoReject? || a.DoCancel? || a.DoExpire? || a.DoFinish? || a.DoSetVehicle? then Next(s, a).db else db
  }

  function BusyFor(db: Db, id: Id, vehicle: Option<Id>): bool {
    id in db.approvals && vehicle.Some? &&
    Conflicts(db, vehicle.value, db.approvals[id].start, db.approvals[id].end, Some(id)) != {}
  }

  ghost predicate WindowsApart(db: Db) {
    forall i, j :: i in db.approvals && j in db.approvals && i != j ==> Apart(db.approvals[i], db.approvals[j])
  }

  /** Two requests that keep the same vehicle leave it at least the margin in between. */
  predicate Apart(a: Approval, b: Approval) {
    Active(a.status) && Active(b.status) && a.vehicle.Some? && a.vehicle == b.vehicle ==>
      a.end + MARGIN <= b.start || b.end + MARGIN <= a.start
  }

  ghost predicate SerialInv(db: Db) {
    Inv(System(db, {})) && WindowsApart(db)
  }

  // A written row that is new to its vehicle had no conflict there.
  lemma PutKeepsWindows(db: Db, id: Id, row: Approval)
    requires WindowsApart(db)
    requires Active(row.status) && row.vehicle.Some? ==>
               || Conflicts(db, row.vehicle.value, row.start, row.end, Some(id)) == {}
               || (id in db.approvals && Active(db.approvals[id].status) && db.approvals[id].vehicle == row.vehicle
                   && db.approvals[id].start == row.start && db.approvals[id].end == row.end)
    ensures WindowsApart(Put(db, id, row))
  {
    var e := Put(db, id, row);
    forall i | i in db.approvals && i != id ensures Apart(row, db.approvals[i]) && Apart(db.approvals[i], row) {
      if Active(row.status) && row.vehicle.Some? && Conflicts(db, row.vehicle.value, row.start, row.end, Some(id)) == {} {
        assert i !in Conflicts(db, row.vehicle.value, row.start, row.end, Some(id));
      } else if id in db.approvals {
        assert Apart(db.approvals[id], db.approvals[i]) && Apart(db.approvals[i], db.approvals[id]);
      }
    }
  }

  lemma CreateKeepsSerialInv(db: Db, id: Id, d: Draft, now: int)
    requires SerialInv(db)
    ensures SerialInv(Serve(db, Creating(id, d, now)))
  {
    if CreateReply(db, d, now).Done? && id !in db.approvals {
      assert !Has(db, d, now, NoApprover) && !Has(db, d, now, VehicleBusy) && !Has(db, d, now, EndsTooEarly)
             && !Has(db, d, now, NoSuchVehicle) && !Has(db, d, now, VehicleOut);
      if d.vehicle.Some? {
        assert Conflicts(db, d.vehicle.value, d.start, d.end, Some(id)) == Conflicts(db, d.vehicle.value, d.start, d.end, None);
      }
      PutKeepsWindows(db, id, CreatedRow(d));
      InsertKeepsInv(System(db, {}), id, CreatedRow(d));
    }
  }

  lemma ApproveKeepsSerialInv(db: Db, id: Id, actor: Actor, vehicle: Option<Id>)
    requires SerialInv(db)
    ensures SerialInv(Serve(db, Approving(id, actor, vehicle)))
  {
    var busy := BusyFor(db, id, vehicle);
    ApproveKeepsInv(System(db, {}), id, actor, vehicle, busy);
    if ApproveReply(db, id, actor, vehicle, busy).Done? {
      PutKeepsWindows(db, id, ApprovedRow(db.approvals[id], vehicle));
    }
  }

  predicate KeepsWindow(a: Approval, b: Approval) {
    b.vehicle == a.vehicle && b.start == a.start && b.end == a.end && (Active(b.status) ==> Active(a.status))
  }

  // A status write that keeps vehicle and window, and does not bring an inactive request back.
  lemma MarkKeepsWindows(db: Db, e: Db)
    requires WindowsApart(db) && e.approvals.Keys == db.approvals.Keys
    requires forall i :: i in db.approvals ==> KeepsWindow(db.approvals[i], e.approvals[i])
    ensures WindowsApart(e)
  {
    forall i, j | i in e.approvals && j in e.approvals && i != j ensures Apart(e.approvals[i], e.approvals[j]) {
      assert Apart(db.approvals[i], db.approvals[j]);
    }
  }

  // A start served alone is the read and the transaction with nothing in between.
  lemma StartIsReadThenOpen(db: Db, t: Id, id: Id, driver: Option<bool>)
    requires StartReply(db, id, driver).Done? && t !in db.trips
    ensures var u := Next(System(db, {}), DoReadForStart(id));
            u.db == db && Serve(db, Starting(t, id, driver)) == Next(u, DoOpen(t, id, db.approvals[id].vehicle.value)).db
  {
  }

  lemma StartKeepsSerialInv(db: Db, t: Id, id: Id, driver: Option<bool>)
    requires SerialInv(db)
    ensures SerialInv(Serve(db, Starting(t, id, driver)))
  {
    var s := System(db, {});
    if StartReply(db, id, driver).Done? && t !in db.trips {
      StartIsReadThenOpen(db, t, id, driver);
      StepKeepsInv(s, DoReadForStart(id));
      OpenKeepsSerialInv(db, Next(s, DoReadForStart(id)), t, id, db.approvals[id].vehicle.value);
    }
  }

  lemma OpenKeepsSerialInv(db: Db, u: System, t: Id, id: Id, v: Id)
    requires Inv(u) && u.db == db && WindowsApart(db)
    ensures SerialInv(Next(u, DoOpen(t, id, v)).db)
  {
    StepKeepsInv(u, DoOpen(t, id, v));
    ForgetStarts(Next(u, DoOpen(t, id, v)));
    OpenKeepsWindows(u, t, id, v);
  }

  lemma OpenKeepsWindows(u: System, t: Id, id: Id, v: Id)
    requires WindowsApart(u.db)
    ensures WindowsApart(Next(u, DoOpen(t, id, v)).db)
  {
    MarkKeepsWindows(u.db, Next(u, DoOpen(t, id, v)).db);
  }

  lemma ForgetStarts(s: System)
    requires Inv(s)
    ensures Inv(System(s.db, {}))
  {
  }

  lemma OtherKeepsSerialInv(db: Db, a: Action)
    requires SerialInv(db)
    ensures SerialInv(Serve(db, Other(a)))
  {
    var s := System(db, {});
    if a.DoReject? || a.DoCancel? || a.DoExpire? || a.DoFinish? || a.DoSetVehicle? {
      StepKeepsInv(s, a);
      if a.DoFinish? && IsOngoing(db, a.trip) {
        FinishFindsInUse(s, a.trip);
        FinishBringsNoneBack(db, a.trip, a.to);
      } else {
        OtherBringsNoneBack(db, a);
      }
      assert Next(s, a) == System(Serve(db, Other(a)), {});
      MarkKeepsWindows(db, Serve(db, Other(a)));
    }
  }

  lemma FinishBringsNoneBack(db: Db, t: Id, to: TripStatus)
    requires IsOngoing(db, t)
    requires db.trips[t].approval in db.approvals && db.approvals[db.trips[t].approval].status.InUse?
    ensures var e := Next(System(db, {}), DoFinish(t, to)).db;
            e.approvals.Keys == db.approvals.Keys &&
            forall i :: i in db.approvals ==> KeepsWindow(db.approvals[i], e.approvals[i])
  {
  }

  lemma OtherBringsNoneBack(db: Db, a: Action)
    requires a.DoReject? || a.DoCancel? || a.DoExpire? || a.DoFinish? || a.DoSetVehicle?
    requires a.DoFinish? ==> !IsOngoing(db, a.trip)
    ensures var e := Next(System(db, {}), a).db;
            e.approvals.Keys == db.approvals.Keys &&
            forall i :: i in db.approvals ==> KeepsWindow(db.approvals[i], e.approvals[i])
  {
  }

  ghost function ServeAll(requests: seq<Request>): Db {
    if requests == [] then EMPTY.db else Serve(ServeAll(requests[..|requests| - 1]), requests[|requests| - 1])
  }

  lemma {:induction false} EverySerialRunKeepsInv(requests: seq<Request>)
    ensures SerialInv(ServeAll(requests))
  {
    if requests != [] {
      var rest, q := requests[..|requests| - 1], requests[|requests| - 1];
      EverySerialRunKeepsInv(rest);
      var db := ServeAll(rest);
      match q
      case Creating(id, d, now) => CreateKeepsSerialInv(db, id, d, now);
      case Approving(id, actor, vehicle) => ApproveKeepsSerialInv(db, id, actor, vehicle);
      case Starting(t, id, driver) => StartKeepsSerialInv(db, t, id, driver);
      case Other(a) => OtherKeepsSerialInv(db, a);
    }
  }

  /** Two active requests for one vehicle are at least 15 minutes apart. */
  lemma ActiveWindowsAreApart(requests: seq<Request>, i: Id, j: Id)
    requires var db := ServeAll(requests);
             && i in db.approvals && j in db.approvals && i != j
             && Active(db.approvals[i].status) && Active(db.approvals[j].status)
             && db.approvals[i].vehicle.Some? && db.approvals[i].vehicle == db.approvals[j].vehicle
    ensures var a, b := ServeAll(requests).approvals[i], ServeAll(requests).approvals[j];
            a.end + 900 <= b.start || b.end + 900 <= a.start
  {
    EverySerialRunKeepsInv(requests);
    assert Apart(ServeAll(requests).approvals[i], ServeAll(requests).approvals[j]);
  }

  /** A vehicle on the list passes every vehicle check a new request makes. */
  lemma ListedVehicleIsAccepted(db: Db, d: Draft, now: int)
    requires d.vehicle.Some? && d.vehicle.value in AvailableVehicles(db, d.start, d.end, None)
    ensures !Has(db, d, now, NoSuchVehicle) && !Has(db, d, now, VehicleOut) && !Has(db, d, now, VehicleBusy)
    ensures CreateReply(db, d, now) != Conflict
  {
    var v := d.vehicle.value;
    assert forall i :: i in Conflicts(db, v, d.start, d.end, None) ==> i in db.approvals;
  }

  /** A manager who assigns a listed vehicle to a pending request is not refused. */
  lemma ListedVehicleCanBeAssigned(db: Db, id: Id, actor: Actor, v: Id)
    requires Inv(System(db, {})) && id in db.approvals && Pending(db.approvals[id].status) && actor.manage
    requires v in AvailableVehicles(db, db.approvals[id].start, db.approvals[id].end, Some(id))
    ensures ApproveReply(db, id, actor, Some(v), BusyFor(db, id, Some(v))) == Done
  {
    var a := db.approvals[id];
    assert StepsFit(a);
    assert forall i :: i in Conflicts(db, v, a.start, a.end, Some(id)) ==> i in db.approvals;
  }

  // ---- the same transactions, statement by statement

  class Database {
    var vehicles: map<Id, Vehicle>
    var approvals: map<Id, Approval>
    var trips: map<Id, Trip>

    constructor ()
      ensures Rows() == EMPTY.db
    {
      vehicles, approvals, trips := map[], map[], map[];
    }

    function Rows(): Db
      reads this
    {
      Db(vehicles, approvals, trips)
    }

    method WindowProblems(d: Draft, now: int) returns (problems: seq<Problem>)
      ensures forall p: Problem :: p in problems <==>
        (p.EndsTooEarly? || p.StartsTooEarly? || p.TooLong?) && Has(Rows(), d, now, p)
    {
      problems := [];
      if d.end <= d.start {
        problems := problems + [EndsTooEarly];
      }
      if d.start < now - PAST_TOLERANCE {
        problems := problems + [StartsTooEarly];
      }
      if d.end - d.start > MAX_DURATION {
        problems := problems + [TooLong];
      }
    }

    method VehicleProblem(d: Draft, ghost now: int) returns (wrong: Option<Problem>)
      ensures forall p: Problem :: p.NoSuchVehicle? || p.VehicleOut? || p.VehicleBusy? ==>
        (wrong == Some(p) <==> Has(Rows(), d, now, p))
      ensures wrong.Some? ==> wrong.value.NoSuchVehicle? || wrong.value.VehicleOut? || wrong.value.VehicleBusy?
    {
      if d.vehicle.None? {
        return None;
      }
      var v := d.vehicle.value;
      if v !in vehicles || vehicles[v].deleted {
        return Some(NoSuchVehicle);
      } else if Unusable(vehicles[v]) {
        return Some(VehicleOut);
      } else if d.start < d.end && Conflicts(Rows(), v, d.start, d.end, None) != {} {
        return Some(VehicleBusy);
      }
      return None;
    }

    /** The precheck gathers every problem it finds. */
    method Prepare(d: Draft, now: int) returns (problems: seq<Problem>)
      ensures forall p :: p in problems <==> Has(Rows(), d, now, p)
      ensures |problems| == 0 <==> forall p :: !Has(Rows(), d, now, p)
    {
      problems := WindowProblems(d, now);
      var wrong := VehicleProblem(d, now);
      if wrong.Some? {
        problems := problems + [wrong.value];
      }
      if !d.passengersKnown {
        problems := problems + [UnknownPassenger];
      }
      if d.first.None? {
        problems := problems + [NoApprover];
      } else if d.needsSecond && d.second.None? {
        problems := problems + [NoSecondApprover];
      }
      assert |problems| > 0 ==> problems[0] in problems;
    }

    method Create(id: Id, d: Draft, now: int) returns (reply: Reply)
      requires id !in approvals
      modifies this
      ensures reply == CreateReply(old(Rows()), d, now)
      ensures Rows() == Serve(old(Rows()), Creating(id, d, now))
    {
      if d.applicant != d.actor.user && !d.actor.manage {
        return Forbidden;
      }
      if !d.applicantActive {
        return BadRequest;
      }
      var problems := Prepare(d, now);
      if problems != [] {
        reply := if VehicleBusy in problems then Conflict else BadRequest;
        return;
      }
      assert !Has(Rows(), d, now, NoApprover);
      var approvers := [d.first.value];
      if d.needsSecond && d.second.Some? && d.second != d.first {
        approvers := approvers + [d.second.value];
      }
      assert !Has(Rows(), d, now, NoSecondApprover);
      assert approvers == Approvers(d.first.value, if d.needsSecond then d.second else None);
      approvals := approvals[id := NewApproval(d.applicant, d.vehicle, d.start, d.end, approvers)];
      return Done;
    }

    method Approve(id: Id, actor: Actor, vehicle: Option<Id>) returns (reply: Reply)
      modifies this
      ensures reply == ApproveReply(old(Rows()), id, actor, vehicle, BusyFor(old(Rows()), id, vehicle))
      ensures Rows() == ApproveTx(old(Rows()), id, actor, vehicle, BusyFor(old(Rows()), id, vehicle))
    {
      if id !in approvals {
        return NotFound;
      }
      var a := approvals[id];
      var next := NextStatus(a.status, Event.Approve, a.level, a.current);
      if next.None? {
        return Conflict;
      }
      if !HasStep(a) {
        return Internal;
      }
      if a.steps[a.current - 1].approver != actor.user && !actor.manage {
        return Forbidden;
      }
      var given := a.vehicle;
      if a.vehicle.None? && vehicle.None? {
        return BadRequest;
      } else if vehicle.Some? && a.vehicle != vehicle {
        if a.vehicle.Some? && !actor.manage {
          return Forbidden;
        }
        var v := vehicle.value;
        if v !in vehicles || vehicles[v].deleted {
          return BadRequest;
        }
        if Unusable(vehicles[v]) {
          return Conflict;
        }
        if Conflicts(Rows(), v, a.start, a.end, Some(id)) != {} {
          return Conflict;
        }
        given := vehicle;
      }
      var step := a.current - 1;
      a := a.(steps := a.steps[step := a.steps[step].(decision := Passed)]);
      if next.value.PendingL2? {
        step := step + 1;
      }
      approvals := approvals[id := a.(status := next.value, current := step + 1, vehicle := given)];
      return Done;
    }

    method Reject(id: Id, actor: Actor) returns (reply: Reply)
      modifies this
      ensures reply == RejectReply(old(Rows()), id, actor)
      ensures Rows() == RejectTx(old(Rows()), id, actor)
    {
      if id !in approvals {
        return NotFound;
      }
      var a := approvals[id];
      if NextStatus(a.status, Event.Reject, a.level, a.current).None? {
        return Conflict;
      }
      if HasStep(a) && a.steps[a.current - 1].approver != actor.user && !actor.manage {
        return Forbidden;
      }
      a := a.(steps := Decide(a, Refused));
      a := a.(steps := SkipWaiting(a.steps));
      approvals := approvals[id := a.(status := Rejected)];
      return Done;
    }

    method Cancel(id: Id, actor: Actor) returns (reply: Reply)
      modifies this
      ensures reply == CancelReply(old(Rows()), id, actor)
      ensures Rows() == CancelTx(old(Rows()), id, actor)
    {
      if id !in approvals {
        return NotFound;
      }
      var a := approvals[id];
      if a.applicant != actor.user && !actor.manage {
        return Forbidden;
      }
      if NextStatus(a.status, Event.Cancel, a.level, a.current).None? {
        return Conflict;
      }
      if HasOngoing(Rows(), id) {
        return Conflict;
      }
      a := a.(steps := SkipWaiting(a.steps));
      approvals := approvals[id := a.(status := Cancelled)];
      return Done;
    }

    method ExpireStale(now: int)
      modifies this
      ensures Rows() == ExpireTx(old(Rows()), now)
    {
      approvals := map i | i in approvals :: ExpiredRow(approvals[i], now);
    }

    /** Start of a trip, after the caller read the request's vehicle. */
    method Open(trip: Id, id: Id, v: Id) returns (reply: Reply)
      requires trip !in trips
      modifies this
      ensures reply == OpenReply(old(Rows()), id, v)
      ensures Rows() == OpenTx(old(Rows()), trip, id, v)
    {
      if id !in approvals {
        return NotFound;
      }
      if approvals[id].status != Approved || VehicleTaken(Rows(), v) {
        return Conflict;
      }
      trips := trips[trip := Trip(id, v, Ongoing)];
      Mark(id, InUse);
      return Done;
    }

    /** Start from the web: the vehicle is read before the transaction that opens the trip. */
    method Start(trip: Id, id: Id, driverActive: Option<bool>) returns (reply: Reply)
      requires trip !in trips
      modifies this
      ensures Rows() == Serve(old(Rows()), Starting(trip, id, driverActive))
      ensures reply == (var before := old(Rows());
                        if StartReply(before, id, driverActive) != Done then StartReply(before, id, driverActive)
                        else OpenReply(before, id, before.approvals[id].vehicle.value))
    {
      if id !in approvals {
        return NotFound;
      }
      var a := approvals[id];
      if a.status != Approved || a.vehicle.None? || a.vehicle.value !in vehicles {
        return Conflict;
      }
      var v := a.vehicle.value;
      if vehicles[v].status != Idle && vehicles[v].status != Charging {
        return Conflict;
      }
      if driverActive == Some(false) {
        return BadRequest;
      }
      reply := Open(trip, id, v);
    }

    /** End of a trip (to Ended) or its cancellation (to Voided); false when it is not ongoing. */
    method Finish(trip: Id, to: TripStatus) returns (done: bool)
      requires !to.Ongoing?
      modifies this
      ensures done == IsOngoing(old(Rows()), trip)
      ensures Rows() == FinishTx(old(Rows()), trip, to)
    {
      if trip !in trips || trips[trip].status != Ongoing {
        return false;
      }
      trips := trips[trip := trips[trip].(status := to)];
      Mark(trips[trip].approval, if to.Ended? then Completed else Approved);
      return true;
    }

    method Mark(id: Id, status: Status)
      modifies this`approvals
      ensures Rows() == MarkStatus(old(Rows()), id, status)
    {
      if id in approvals {
        approvals := approvals[id := approvals[id].(status := status)];
      }
    }
  }
}
