# Fleet management model

A Dafny model of the hard parts of a fleet-management backend (Go) and of two routines of its web front end
(TypeScript): vehicle requests and the trips made on them, advance bookings, accounts and billing, the monthly
settlement, charging sessions and the pile connections behind them, trip telemetry, and track simplification.

SQL tables are maps of rows; a transaction is one atomic step, or, in `BillingProtocol` and `Numbering`, a
sequence of lock, read and commit steps. Requests that run at once are actions of a state machine, and a theorem
over "every run" quantifies over every sequence of actions; a disabled action changes nothing. Code that changes
rows step by step is a class whose methods are proved equal to the specification functions the theorems are about.
The modules named `...Answers`, `...Effects` and `...Alarms` say on the bare rows what those functions amount to: when
each request is granted, and what it leaves.
Money is in whole cents (amounts that arrive with more digits are reals), time is an integer, ids are natural
numbers of which only equality matters. What is left out or depends on the outside (the price
of a trip, clocks, query answers taken at another moment, which write fails) is a parameter.

| module | repository files |
|---|---|
| `Workflow`, `WorkflowAnswers`, `Approvers`, `NightWindow`, `Numbering` | `approval/*`, `trip/store.go`, `trip/service.go` |
| `Booking`, `BookingAnswers` | `booking/*` |
| `Ledger`, `BillingProtocol`, `BillingEffects` | `billing/service.go`, `billing/accounts.go`, `billing/hooks.go` |
| `StableSort`, `SettlementLines`, `Settlement`, `SettlementEffects` | `billing/logic.go` |
| `Registry`, `Calls` | `ocpp/registry.go`, `ocpp/server.go` |
| `Charging`, `ChargingEffects`, `Sampling` | `charging/*`, `geo.ts` |
| `Telemetry`, `TelemetryAlarms` | `trip/service.go`, `trip/geo.go` |
| `Simplify`, `Geometry` | `geo.ts` |

Where the code does not do what its comments or a natural reading promise, the model follows the code, a lemma
gives a run or an input that shows it, and another states exactly when it happens:

- A charging session can be debited twice: the lookup for an earlier debit is not made under a lock
  (`SessionCanBeChargedTwice`); a commit pays again exactly when another charge was committed since the caller's
  lookup (`SecondChargeIffLookupWentStale`). The comment calls the function idempotent; it is when requests run one
  at a time (`SessionIsDebitedOnce`).
- A rejected charging session keeps the debit of an earlier attempt whose settle write was lost
  (`RejectedCanBePaid`); after a rejection a debit is there exactly when one was before (`RejectKeepsTheDebit`).
- A charging session can end in nobody's queue (`SessionCanBeStranded`), exactly when the note of its failed billing
  is lost as well (`FinishStrandsIff`, `OnlyFinishingStrands`), and then no request changes it (`UnmarkedIsStuck`).
- The summary can miss a deviation that raised the live flag (`SummaryCanMissALiveFlag`); the two differ exactly for
  maxima between 1000 m and 1000.05 m (`SummaryFlagDiffersIff`).
- The comments in `booking/rules.go` and `booking/store.go` say both modules agree on what "free" means; they agree
  on the margin, but requests do not look at bookings (`RequestsDoNotSeeBookings`), and the two differ exactly when an
  active booking is within the margin (`ModulesAgreeUnlessBooked`).
- A pile can be reported disconnected although its next connection is already live (`ReportCanBeStale`), exactly
  when one is registered at the moment of the report (`ReportIsStaleWhenReconnected`).

## Model

| member | source | states |
|---|---|---|
| Workflow.StatusMirrorsTrips | apps/api/internal/trip/store.go:474-570 | in every run of inserts, approvals, rejections, withdrawals, expiries and trip starts, ends and cancellations a request is in_use iff exactly one ongoing trip stands on it, completed iff exactly one ended trip does, and the ongoing-trip query agrees |
| Workflow.TripDrivesTheRequestsVehicle | apps/api/internal/trip/service.go:265-308 | every trip drives the vehicle of its request, although the start read that vehicle before the transaction |
| WorkflowAnswers.EveryStatusWriteIsAnArrow | apps/api/internal/approval/rules.go:139-175 | in every run each write of a status, the unguarded MarkStatus included, follows one of the machine's arrows, of that action's event and with a second level asked for exactly when there is a second step |
| WorkflowAnswers.MachineIsTheArrows | apps/api/internal/approval/rules.go:139-175 | the status machine allows exactly those arrows |
| WorkflowAnswers.RejectionIsGrantedIff | apps/api/internal/approval/service.go:580-619 | in every run a rejection is granted iff the request is pending at either level and the actor is the current approver or a manager; it leaves rejected, and a refused one leaves everything |
| WorkflowAnswers.ApprovalIsGrantedIff | apps/api/internal/approval/service.go:484-555 | in every run the answer to an approval, check by check, the status and vehicle it leaves, and that a refused one leaves everything |
| WorkflowAnswers.WithdrawalIsGrantedIff | apps/api/internal/approval/service.go:622-668 | in every run a withdrawal is granted iff the request is pending or approved and the actor its applicant or a manager |
| WorkflowAnswers.OpenIsGrantedIff | apps/api/internal/trip/store.go:474-503 | a trip is opened iff the request is approved and its vehicle has no ongoing trip; the request is then in_use |
| WorkflowAnswers.FinishLeaves | apps/api/internal/trip/store.go:520-570 | in every run an ongoing trip that ends leaves its request completed, one that is cancelled leaves it approved, anything else changes nothing |
| WorkflowAnswers.StartIsGrantedIff | apps/api/internal/trip/service.go:265-308 | a start goes ahead iff the request is approved, its vehicle idle or charging and a named driver active |
| WorkflowAnswers.VehicleDrivesOneTrip | apps/api/internal/trip/store.go:474-503 | in every run a vehicle has at most one ongoing trip |
| WorkflowAnswers.ConflictsAreExactly | apps/api/internal/approval/store.go:376-390 | the conflict query finds exactly the other active requests for the vehicle within 15 minutes of the window |
| WorkflowAnswers.ListedIffFree | apps/api/internal/approval/store.go:392-408 | a vehicle is listed iff it is idle or charging, not deleted, and no such request is there |
| WorkflowAnswers.CreationIsGrantedIff | apps/api/internal/approval/service.go:260-386 | a request is created iff actor, window, vehicle, passengers and approvers pass, each stated on the fields |
| WorkflowAnswers.CreationConflictsIff | apps/api/internal/approval/service.go:452-479 | the answer is a conflict iff a vehicle in service is taken around a forward window |
| WorkflowAnswers.NewRequestAsksInOrder | apps/api/internal/approval/service.go:452-479 | a new request waits for the first approver, and then for a second one iff that is needed and somebody else |
| Workflow.FinishFindsInUse | apps/api/internal/trip/store.go:520-570 | ending or cancelling an ongoing trip always finds its request in_use |
| Workflow.WithdrawalNeedsNoTripCheck | apps/api/internal/approval/service.go:638-645 | whenever a trip is ongoing the status alone already refuses the withdrawal |
| Workflow.StepsTellTheStatus | apps/api/internal/approval/service.go:484-673 | in every run the steps fit the status: pending at level k has step k waiting and the earlier ones passed; approved, in_use and completed have all steps passed and a vehicle; rejected has one refused step with passed before and skipped after; no final status has a waiting step |
| Workflow.EveryRunKeepsInv | apps/api/internal/approval/rules.go:139-175 | the joint invariant of requests, steps, trips and half-done starts holds in every run |
| Workflow.ActiveWindowsAreApart | apps/api/internal/approval/store.go:376-390 | with requests served one at a time, two active requests for one vehicle are at least 15 minutes apart, through creation, (re)assignment and cancelled trips |
| Workflow.EverySerialRunKeepsInv | apps/api/internal/approval/service.go:513-539 | serial runs keep the joint invariant and the windows apart |
| Workflow.ListedVehicleIsAccepted | apps/api/internal/approval/store.go:392-408 | a vehicle listed as available passes every vehicle check of a new request for that window |
| Workflow.ListedVehicleCanBeAssigned | apps/api/internal/approval/store.go:392-408 | a manager can assign a listed vehicle to a pending request |
| Workflow.ApprovalPassesOneStep | apps/api/internal/approval/service.go:497-555 | a granted approval comes from the current step's approver or a manager, passes exactly that waiting step, leaves a vehicle, changes a chosen one only for a manager, ends the chain exactly at the last step, and touches no other row |
| Workflow.RejectionRefusesOneStep | apps/api/internal/approval/service.go:593-612 | a granted rejection comes from the current step's approver or a manager, refuses that step, skips the rest, and changes nothing else |
| Workflow.Database.Prepare | apps/api/internal/approval/service.go:260-386 | the precheck gathers exactly the problems that apply, and none iff none applies |
| Workflow.Database.VehicleProblem | apps/api/internal/approval/service.go:292-317 | the vehicle's one problem, if any: missing, out of service, or taken around that time |
| Workflow.Database.WindowProblems | apps/api/internal/approval/service.go:280-290 | exactly the problems of the window itself |
| Workflow.Database.Create | apps/api/internal/approval/service.go:452-479 | the answer (conflict when the vehicle is taken, bad request otherwise) and the rows after it |
| Workflow.Database.Approve | apps/api/internal/approval/service.go:484-577 | the answer in the order of the checks and the rows after it |
| Workflow.Database.Reject | apps/api/internal/approval/service.go:580-619 | the answer and the rows after it |
| Workflow.Database.Cancel | apps/api/internal/approval/service.go:622-668 | the answer and the rows after it |
| Workflow.ExpiryEndsExactlyTheStale | apps/api/internal/approval/store.go:103-117 | exactly the pending and approved requests over for two hours expire, none of their steps is left waiting and decided ones stay, every other row is as it was, and nothing is left to expire |
| Workflow.Database.Start | apps/api/internal/trip/service.go:265-308 | the answer in the order of the checks, and the rows after the start's own transaction |
| Workflow.Database.Open | apps/api/internal/trip/store.go:474-503 | the trip is inserted and the request marked together, or nothing happens |
| Workflow.Database.Finish | apps/api/internal/trip/store.go:520-570 | an ongoing trip is closed or cancelled and its request marked together; anything else is refused |
| Approvers.ResolveLevel1 | apps/api/internal/approval/service.go:402-434 | never the applicant: the leader of the nearest department of the chain within 32 levels, else the oldest suitable holder of the fallback role, else of the administrator role, else nobody |
| Approvers.FirstHolder | apps/api/internal/approval/store.go:335-347 | the oldest active holder of a role other than the applicant |
| NightWindow.NightOverlap | apps/api/internal/approval/rules.go:43-69 | true iff at some instant of the request the Shanghai clock is inside the circular window, over all days; equal or malformed bounds never match |
| NightWindow.OverlapTouches | apps/api/internal/approval/rules.go:57-67 | an overlap found on a scanned day gives such an instant |
| NightWindow.TouchOverlapsScannedDay | apps/api/internal/approval/rules.go:54-57 | every such instant lies in the window of one of the scanned days, so the bounded scan is complete |
| NightWindow.ParsesExactlyTheClock | apps/api/internal/approval/rules.go:28-38 | exactly the strings HH:MM of a 24-hour clock are accepted, each read as the minute it names |
| NightWindow.FullDayTouches | apps/api/internal/approval/rules.go:43-69 | a request of a day or more touches every window with different bounds |
| Numbering.NumbersAreGapless | apps/api/internal/approval/rules.go:187-203 | in every run under the advisory lock, rollbacks included, each day's committed numbers are exactly 1 to k, and no number repeats |
| Numbering.FormatReadsBack | apps/api/internal/approval/rules.go:177-180 | the query's trailing-digits parse gives back the number formatted, at any width |
| Numbering.FormatIsPadded | apps/api/internal/approval/rules.go:177-180 | a formatted number is prefix, day and the decimal number behind zeros up to the width, and longer only when the number is |
| Numbering.NextIsNew | apps/api/internal/approval/rules.go:197-202 | the number drawn is on no committed row |
| Numbering.LikeSelectsOwnDay | apps/api/internal/approval/rules.go:182-202 | the LIKE pattern of a day selects the numbers of that day only |
| Numbering.DrawnIsNext | apps/api/internal/approval/rules.go:197-202 | the number drawn is one more than the count of the day's committed numbers |
| Booking.ActiveBookingsAreApart | apps/api/internal/booking/service.go:91-254 | two active bookings of one vehicle are at least 15 minutes apart, through every create, edit and status change |
| Booking.EveryRunKeepsInv | apps/api/internal/booking/service.go:113-218 | windows stay apart and of allowed length, and whatever departed has a vehicle |
| Booking.ListedVehicleIsAccepted | apps/api/internal/booking/store.go:244-259 | a listed vehicle is one the module's own conflict query finds free and its check accepts |
| Booking.ModulesAgreeUnlessBooked | apps/api/internal/booking/store.go:214-242 | free for a booking is free for a request; the converse holds exactly when no active booking is within the margin |
| Booking.RequestsDoNotSeeBookings | apps/api/internal/booking/store.go:214-242 | with one booking of the vehicle the requests' query finds it free and the bookings' does not |
| Booking.FinalStays | apps/api/internal/booking/rules.go:48-66 | no request changes a completed or cancelled booking |
| Booking.ValidateWindow | apps/api/internal/booking/rules.go:31-46 | accepted iff of 5 minutes to 7 days and not older than 30 days |
| Booking.BookingDesk.Check | apps/api/internal/booking/service.go:318-340 | missing, out of service, taken by a booking or a request, or fine |
| Booking.BookingDesk.Create | apps/api/internal/booking/service.go:91-109 | the answer and the rows after it |
| Booking.BookingDesk.Update | apps/api/internal/booking/service.go:113-218 | the answer and the rows after it; clearing the vehicle wins over naming one |
| Booking.BookingDesk.Transition | apps/api/internal/booking/service.go:222-254 | the answer and the rows after it |
| BookingAnswers.FreeIffUntaken | apps/api/internal/booking/store.go:214-242 | a vehicle is free iff no active booking but the excluded one and no active request is within 15 minutes of the window |
| BookingAnswers.ListedIffFree | apps/api/internal/booking/store.go:244-259 | a vehicle is listed iff it is idle or charging, not deleted, and free |
| BookingAnswers.CreationIsGrantedIff | apps/api/internal/booking/service.go:91-109 | a booking is made iff the window is good, the passenger known and a named vehicle can be had; it is then exactly the row added |
| BookingAnswers.EditIsGrantedIff | apps/api/internal/booking/service.go:113-218 | an edit is granted iff the booking is reserved and the window, passenger and vehicle it asks for pass; it leaves exactly these |
| BookingAnswers.ClearingWins | apps/api/internal/booking/service.go:113-218 | a granted edit that clears the vehicle leaves none, whatever vehicle it names |
| BookingAnswers.TransitionIsGrantedIff | apps/api/internal/booking/service.go:222-254 | a transition is granted iff the status has that arrow and a departure has a vehicle that is idle or charging |
| Ledger.RoundingIsOdd | apps/api/internal/billing/logic.go:106 | rounding commutes with the sign, so both sides of a transfer round alike |
| Ledger.WholeCentsStay | apps/api/internal/billing/logic.go:106 | rounding leaves whole cents as they are |
| Ledger.RoundingIsNearest | apps/api/internal/billing/logic.go:106 | the rounded amount is the nearest whole number of cents, of two the one further from zero |
| Ledger.BalanceIsSumOfPostings | apps/api/internal/billing/service.go:117-134 | in balanced books a balance is its last balance_after and the sum of its postings |
| Ledger.PostKeepsBalance | apps/api/internal/billing/service.go:117-134 | a posting from the current row keeps the books balanced and moves the balance by the rounded amount |
| Ledger.DebitKeepsBalance | apps/api/internal/billing/service.go:138-154 | a debit takes the rounded amount whatever its sign, and the account exists afterwards |
| Ledger.MoveKeepsBalance | apps/api/internal/billing/accounts.go:261-265 | a transfer takes from one account what it gives the other and touches no third |
| Ledger.MoveKeepsTotal | apps/api/internal/billing/accounts.go:261-265 | a transfer leaves the sum of all balances of the tenant |
| Ledger.SufficientNeverOverdraws | apps/api/internal/billing/logic.go:50-58 | the test on the unrounded amount, tolerance included, still keeps the source at or above minus its credit limit |
| Ledger.AllocationIsGrantedIff | apps/api/internal/billing/accounts.go:212-266 | an allocation is granted iff the source is there and active, the target there or named by owner, one level below, and balance and limit cover the amount; otherwise the first check that fails answers |
| Ledger.WholeAmountSufficesIff | apps/api/internal/billing/logic.go:50-53 | for whole cents the tolerance plays no part: sufficient iff balance and limit cover the amount |
| Ledger.AllocationIsSound | apps/api/internal/billing/accounts.go:212-266 | every allocation, granted or refused, keeps books and total, and never overdraws the source |
| Ledger.AccountBook.Ensure | apps/api/internal/billing/service.go:44-82 | the account's row, created on first use |
| Ledger.AccountBook.Post | apps/api/internal/billing/service.go:117-134 | the balance and the transaction row written from the row read |
| Ledger.AccountBook.Debit | apps/api/internal/billing/service.go:136-154 | resolve, lock and post a negative amount; zero leaves no posting |
| Ledger.AccountBook.Recharge | apps/api/internal/billing/accounts.go:186-209 | credits the enterprise account, creating it on first use |
| Ledger.AccountBook.Adjust | apps/api/internal/billing/accounts.go:284-306 | a signed correction of an existing account, never of zero |
| Ledger.AccountBook.Allocate | apps/api/internal/billing/accounts.go:212-266 | the answer in the order of the checks and the books after it |
| BillingProtocol.LocksAscend | apps/api/internal/billing/accounts.go:217-266 | whatever a caller waits for ranks above everything it holds: trip, enterprise, department, employee |
| BillingProtocol.NoWaitCycle | apps/api/internal/billing/service.go:84-97 | the waits-for relation has no cycle of any length |
| BillingProtocol.SomeoneIsNotBlocked | apps/api/internal/billing/service.go:84-97 | while anybody is unfinished, somebody unfinished waits for no lock |
| BillingProtocol.UnblockedCanStep | apps/api/internal/billing/hooks.go:100-130 | who waits for no lock can take a step of its own without any error |
| BillingProtocol.SomeoneCanAlwaysStep | apps/api/internal/billing/hooks.go:100-133 | in every interleaving, while anybody is unfinished, some unfinished caller can take a step of its own without any error |
| BillingProtocol.EveryStepGetsNearer | apps/api/internal/billing/hooks.go:100-133 | each step of a caller, failures included, lessens what it has left to do and moves nobody else |
| BillingProtocol.LocksAreExclusive | apps/api/internal/billing/service.go:84-97 | in every interleaving no two callers hold one lock |
| BillingProtocol.EveryRunKeepsInv | apps/api/internal/billing/hooks.go:100-133 | in every interleaving what was read under a lock is still true, the books balance, and trips are billed once |
| BillingProtocol.BooksAlwaysBalance | apps/api/internal/billing/service.go:117-134 | in every interleaving each balance is its last balance_after and the sum of its postings |
| BillingProtocol.TripIsBilledOnce | apps/api/internal/billing/hooks.go:63-134 | in every interleaving a trip has at most one trip posting, exactly one iff it is charged and cost something, of minus its cost |
| BillingProtocol.ChargedIsFinal | apps/api/internal/billing/hooks.go:131-134 | no step rewrites a charged trip, the failure marker least of all |
| BillingProtocol.AllocationConserves | apps/api/internal/billing/accounts.go:212-266 | a committed allocation conserves the tenant's total and does not overdraw, whatever ran meanwhile |
| BillingProtocol.CommitWritesHeldRows | apps/api/internal/billing/service.go:117-134 | a commit writes only rows under the caller's own locks |
| BillingEffects.RechargeAdds | apps/api/internal/billing/accounts.go:186-209 | in every interleaving a committed recharge adds the rounded amount to the enterprise account with one posting of it, and nothing else changes |
| BillingEffects.AdjustmentAdds | apps/api/internal/billing/accounts.go:284-306 | a committed adjustment adds the signed rounded amount to the account it names with one posting of it |
| BillingEffects.AllocationMoves | apps/api/internal/billing/accounts.go:261-265 | a committed allocation lowers the source and raises the target by the rounded amount, with two postings that name each other |
| BillingEffects.ChargeTakes | apps/api/internal/billing/hooks.go:172-228 | a committed charge lowers the payer, or the enterprise after a fallback, by the cost, with one posting for the session; at no cost no posting and no balance moves |
| BillingEffects.BillTakes | apps/api/internal/billing/hooks.go:98-128 | a committed bill lowers the payer by the cost and charges the trip, unless the trip was charged already |
| BillingEffects.OnlyCommitsMoveMoney | apps/api/internal/billing/hooks.go:98-133 | no other step adds a posting or moves a balance |
| BillingEffects.ErrorLeadsTo | apps/api/internal/billing/hooks.go:129-133 | an error sends a bill to its failure marker, a charge to one more attempt with the enterprise as payer, and ends everything else, leaving books and trips |
| BillingEffects.MarkerLeaves | apps/api/internal/billing/hooks.go:129-132 | the marker leaves a charged trip charged and any other failed |
| BillingEffects.LookEndsIff | apps/api/internal/billing/hooks.go:63-228 | the look before the transaction ends a bill iff the trip is charged and a charge iff the session has a charge posting |
| BillingEffects.RefusedIff | apps/api/internal/billing/accounts.go:212-306 | who refuses itself inside a transaction: exactly a missing account or an allocation that the locked source does not allow |
| BillingEffects.CommitsIff | apps/api/internal/billing/accounts.go:212-266 | who can commit: exactly a caller with all its locks whose checks pass on the rows as they are |
| BillingProtocol.SecondChargeIffLookupWentStale | apps/api/internal/billing/hooks.go:179-214 | a commit pays a session again iff another charge for it was committed since this caller's lookup |
| BillingProtocol.SessionCanBeChargedTwice | apps/api/internal/billing/hooks.go:172-228 | a run of two callers that debits one session twice |
| BillingProtocol.TripBiller.BillAlone | apps/api/internal/billing/hooks.go:63-134 | a lone caller debits and stamps together, returns a charged trip untouched, only marks a failure, or changes nothing for a missing trip |
| StableSort.SortOrders | apps/api/internal/billing/logic.go:269 | sorting gives an ordered permutation |
| StableSort.SortIsStable | apps/api/internal/billing/logic.go:269 | elements of one instant keep their order |
| StableSort.AnyStableSortAgrees | apps/api/internal/billing/logic.go:269 | any ordered list with that property is the sorted list, whatever algorithm made it |
| StableSort.SortCommutesWithKeep | apps/api/internal/billing/logic.go:269 | a stable sort commutes with selecting elements |
| StableSort.KeepIsExact | apps/api/internal/trip/service.go:685-691 | selecting keeps every wanted element as often as it is there and no other |
| Settlement.BuildSettlement | apps/api/internal/billing/logic.go:228-273 | the rows are the enterprise's and the departments', in order, as gathered from all facts; a department listed twice gathers in its last row |
| Settlement.DepartmentLinesAreSelected | apps/api/internal/billing/logic.go:247-271 | a department's sorted lines are the enterprise's sorted lines filtered to its facts |
| Settlement.OwnRefsSeparate | apps/api/internal/billing/logic.go:110-135 | when no two facts share an id, such a filter by ids exists |
| Settlement.RowLinesAreSorted | apps/api/internal/billing/logic.go:267-271 | a row's lines are a permutation of its facts' lines, ordered by time, ties as they came |
| Settlement.PenaltiesFollowTheirTrips | apps/api/internal/billing/logic.go:183-215 | in every sorted row each penalty line stands immediately after its own trip's line |
| Settlement.RowGathers | apps/api/internal/billing/logic.go:239-246 | each number of a row is the sum over the facts it concerns |
| Settlement.ColumnsMatchLines | apps/api/internal/billing/logic.go:239-246 | trip cost and charge cost are the sums of the lines of their kind and the two counts are their numbers |
| Settlement.TotalIsLineSumIff | apps/api/internal/billing/logic.go:174-180 | with non-negative costs a row's total is the sum of its line amounts; in general iff no trip it gathers has a negative cost and a penalty |
| Settlement.TotalsDifferByUnlined | apps/api/internal/billing/logic.go:174-215 | a total exceeds its lines by exactly the cost that is on no line |
| Settlement.NegativeCostLosesItsLine | apps/api/internal/billing/logic.go:174-215 | a remark on the function by itself: a negative cost with a penalty, which no pricing produces, would be in the total and on no line |
| Settlement.EnterpriseTotalIsAllCosts | apps/api/internal/billing/logic.go:265-268 | the enterprise total is the sum of all facts' costs |
| Settlement.EnterpriseColumnsAddUp | apps/api/internal/billing/logic.go:247-264 | each enterprise column is the departments' sum plus the facts of no listed department |
| SettlementEffects.OneMoreTripMovesTheRow | apps/api/internal/billing/logic.go:174-215 | one more trip that a row gathers counts one, adds its fine as far as the cost goes to the penalty and the rest to the trip cost, and adds a line of each |
| SettlementEffects.OneMoreChargeMovesTheRow | apps/api/internal/billing/logic.go:217-246 | one more charging session counts one, adds its cost to the charge cost and a line of it |
| SettlementEffects.StrangersLeaveTheRow | apps/api/internal/billing/logic.go:247-264 | facts of other departments leave a row's numbers and lines |
| SettlementEffects.WhoGathersWhat | apps/api/internal/billing/logic.go:228-264 | the enterprise row gathers every fact, a department's last row those of its own id |
| SettlementEffects.RowsAreLabelled | apps/api/internal/billing/logic.go:228-241 | rows carry their department and budget; the enterprise budget is the sum |
| Registry.RegisteredIsLastAdded | apps/api/internal/ocpp/registry.go:128-152 | in every interleaving a registered connection is the last one added for its pile and is not closed |
| Registry.ReplacedIsNeverReported | apps/api/internal/ocpp/server.go:144-157 | in every interleaving a connection that was replaced is never current again and never reported as disconnected |
| Registry.ReplacedLeavesSuccessorAlone | apps/api/internal/ocpp/server.go:132-157 | in every interleaving no step taken for a replaced connection, by its own goroutine or by the sweeper, changes what is registered, reports a pile disconnected, or touches a registered connection |
| Registry.DisconnectedOnce | apps/api/internal/ocpp/server.go:146-157 | Disconnected is reported at most once for each connection |
| Registry.NoneLeakedAtRest | apps/api/internal/ocpp/server.go:132-157 | with nobody in the middle of something, the open connections are exactly the registered ones |
| Registry.EveryRunKeepsInv | apps/api/internal/ocpp/server.go:255-279 | the invariant of connects, exits and sweeps holds in every interleaving |
| Registry.ReportCanBeStale | apps/api/internal/ocpp/server.go:146-157 | a run in which the pile is reported disconnected after it reconnected |
| Registry.ReportIsStaleWhenReconnected | apps/api/internal/ocpp/server.go:146-157 | that happens iff a connection for the pile is registered at the report |
| Registry.LeavingReports | apps/api/internal/ocpp/server.go:144-157 | a connection whose read loop ends is closed; iff it was registered it is forgotten and its pile reported |
| Registry.ConnectReplaces | apps/api/internal/ocpp/server.go:132-136 | a new connection speaks for its pile at once and the replaced one is closed |
| Registry.SweepDrops | apps/api/internal/ocpp/server.go:255-279 | a sweep forgets and closes exactly the connection registered for the stale pile |
| Registry.SweepSparesTheSuccessor | apps/api/internal/ocpp/server.go:255-279 | when the pile reconnects in the middle of a sweep the new connection stays registered and open |
| Registry.PileRegistry.Add | apps/api/internal/ocpp/registry.go:128-135 | the connection becomes current and the replaced one is returned |
| Registry.PileRegistry.Remove | apps/api/internal/ocpp/registry.go:137-146 | forgets the connection iff it is the current one, and says so |
| Calls.PayloadIsOfTheFirstOwnAnswer | apps/api/internal/ocpp/registry.go:59-92 | a returned payload is that of the first answer with the call's own id since it registered, whatever duplicates, late answers, timeouts and closes there are |
| Calls.PendingHoldsUnfinishedCalls | apps/api/internal/ocpp/registry.go:66-74 | the pending table holds exactly the calls that have not returned |
| Calls.ResolveNeverBlocks | apps/api/internal/ocpp/registry.go:94-107 | past the lookup the send always goes through, and an answer that finds the buffer full is of no use |
| Calls.AnswerIsNotLost | apps/api/internal/ocpp/registry.go:78-92 | a waiting call can receive iff an answer of its own was looked up since it registered |
| Calls.TakenAnswerIsReturned | apps/api/internal/ocpp/registry.go:78-92 | in every run a call that takes its answer returns the first own one: its payload, or a failure for a CALLERROR |
| Calls.UnansweredCallFails | apps/api/internal/ocpp/registry.go:75-92 | a failed write, a timeout or a close fails the call and takes it out of the table |
| Calls.EveryRunKeepsInv | apps/api/internal/ocpp/server.go:193-200 | the invariant holds in every interleaving of calls and answers |
| Calls.ResolveIsLookUpThenOffer | apps/api/internal/ocpp/registry.go:94-107 | a resolve that nobody interrupts does to the buffers what the protocol's lookup and send do |
| Calls.PileConnection.Register | apps/api/internal/ocpp/registry.go:66-69 | a fresh channel under the call's id |
| Calls.PileConnection.Resolve | apps/api/internal/ocpp/registry.go:94-107 | the answer goes into the buffer of its own call unless one is there; unknown ids are dropped |
| Calls.PileConnection.Leave | apps/api/internal/ocpp/registry.go:70-74 | the id is taken out of the table, and nothing else changes |
| Calls.CloseWakesWaitingCalls | apps/api/internal/ocpp/registry.go:84-118 | after a close every waiting call can end without an answer and leave the table, nothing reopens the connection, and closing again changes nothing |
| Charging.SessionIsDebitedOnce | apps/api/internal/charging/service.go:371-456 | with requests one at a time and any write failing, a session is debited at most once; a settled one exactly once, by minus its cost, or not at all at no cost |
| Charging.OneSessionPerConnector | apps/api/internal/charging/service.go:235-287 | a connector runs at most one session |
| Charging.SettledIsFinal | apps/api/internal/charging/store.go:576-598 | a settled session is never rewritten and never reviewed |
| Charging.NoWriteSkipsEnded | apps/api/internal/charging/store.go:558-598 | whatever a request does to a session, each of its writes moves the status at most one step, from charging to ended or from ended to settled, and the last one leaves the row the request ends with |
| Charging.StatusOnlyMovesForward | apps/api/internal/charging/service.go:371-456 | no request moves a session's status backwards |
| Charging.RetrySettlesForTheFirstDebit | apps/api/internal/billing/hooks.go:179-192 | a retried review debits nothing and settles for what the first attempt debited, whatever the price is now |
| Charging.RejectKeepsTheDebit | apps/api/internal/charging/store.go:592-598 | after a rejection the session is debited iff it was before |
| Charging.RejectedCanBePaid | apps/api/internal/charging/service.go:772-791 | a run that ends with a rejected session without a cost and with a debit |
| Charging.SessionCanBeStranded | apps/api/internal/charging/service.go:411-417 | a run that leaves a session ended, neither settled nor waiting for review |
| Charging.FinishStrandsIff | apps/api/internal/charging/service.go:371-417 | finishing a running session leaves it so iff it is closed and billed at once, the billing fails without having settled, and the note of the failure is lost |
| Charging.OnlyFinishingStrands | apps/api/internal/charging/service.go:772-869 | no review leaves a session so, only the finish of a running one |
| Charging.UnmarkedIsStuck | apps/api/internal/charging/service.go:777-785 | no request changes such a session any more |
| Charging.EveryRunKeepsInv | apps/api/internal/charging/service.go:192-456 | sessions and charge postings agree in every run |
| ChargingEffects.StopCloses | apps/api/internal/charging/service.go:352-435 | a stop of a running session whose closing write works queues it uncharged iff no vehicle is bound or the meters deviate, and otherwise debits the price and settles it, as far as hook and writes work; any other stop changes nothing |
| ChargingEffects.StartClosesTheStale | apps/api/internal/charging/service.go:235-287 | a start on a busy connector closes the stale session in the same way, at the first attempt that writes, and adds the new one; if neither writes nothing changes |
| ChargingEffects.StartOnFreeConnector | apps/api/internal/charging/service.go:192-311 | on a free connector a start adds the running session and nothing else |
| ChargingEffects.ApprovalBills | apps/api/internal/charging/service.go:793-869 | an approval settles the session at its earlier posting, or else debits the price and settles at it; when hook or settle write fails it stays waiting |
| ChargingEffects.ReviewIsGrantedIff | apps/api/internal/charging/service.go:772-791 | exactly the ended sessions that wait for review are reviewed |
| ChargingEffects.RejectionEnds | apps/api/internal/charging/store.go:592-598 | a rejection ends the session without a cost and leaves postings and other sessions |
| ChargingEffects.EveryPostingPaysItsSession | apps/api/internal/charging/service.go:371-456 | in every run each posting is the only one of its session, a debit, and of exactly the cost once the session is settled |
| ChargingEffects.FirstChargeIsFirst | apps/api/internal/billing/hooks.go:179-192 | the earlier debit that the hook finds is the session's first posting |
| Charging.ChargingDesk.PriceAndCharge | apps/api/internal/billing/hooks.go:172-228 | an earlier debit is found and returned, otherwise the price is debited, nothing for a price of zero |
| Charging.ChargingDesk.MarkPending | apps/api/internal/charging/store.go:586-590 | queued for review unless settled |
| Charging.ChargingDesk.Bill | apps/api/internal/charging/service.go:437-456 | debit, settle, and queue for review whatever looked wrong |
| Charging.ChargingDesk.Finish | apps/api/internal/charging/service.go:371-435 | close by compare-and-set, then bill or queue |
| Charging.ChargingDesk.StartTransaction | apps/api/internal/charging/service.go:192-311 | close a stale session, insert, and on a unique violation close and insert once more |
| Charging.ChargingDesk.StopTransaction | apps/api/internal/charging/service.go:350-369 | unknown and already closed transactions are ignored |
| Charging.ChargingDesk.ReviewSession | apps/api/internal/charging/service.go:772-869 | only a session waiting for review and not charging is approved or rejected |
| Telemetry.LiveEventsKeepApart | apps/api/internal/trip/service.go:696-750 | over any batches in any order of arrival, a live event is at least two minutes after every stored event of its type before it |
| Telemetry.OneOfAKindPerBatch | apps/api/internal/trip/service.go:700-717 | a batch stores at most one event of a type |
| Telemetry.LastTimesBound | apps/api/internal/trip/store.go:232-249 | the last time of a type is not before any stored event of it |
| TelemetryAlarms.BatchAddsExactly | apps/api/internal/trip/service.go:696-750 | which events a batch adds, for each type that is stored: exactly the one at the first point by time that shows the cause two minutes or more after the stored events of the type; for the roof sign its first change and the first change back |
| TelemetryAlarms.DueAlarmIsRaised | apps/api/internal/trip/service.go:725-750 | a batch with a point that shows the cause when it is due stores an event of the type, no later than that point (a sign that turns back has to have turned first, which BatchAddsExactly covers) |
| TelemetryAlarms.EveryAlarmHasACause | apps/api/internal/trip/service.go:725-750 | each event a batch stores has a point of that instant that shows its cause when it is due |
| TelemetryAlarms.BatchAddsInOrder | apps/api/internal/trip/service.go:682-750 | the events of a batch are stored in order of time |
| TelemetryAlarms.LastTimesAreLatest | apps/api/internal/trip/store.go:232-249 | the last time of a type is the latest of its stored events, and there is one iff there is such an event |
| Telemetry.RunningMaximumIsOffline | apps/api/internal/trip/geo.go:72-85 | the stored running maximum is the rounded offline maximum over all points, and the flag says whether it is above the threshold |
| Telemetry.MaxOffIgnoresOrder | apps/api/internal/trip/geo.go:72-85 | the offline maximum does not depend on the order of the points |
| Telemetry.SummaryFlagDiffersIff | apps/api/internal/trip/geo.go:191-195 | the summary's flag differs from the live one iff the maximum is between 1000 and 1000.05 |
| Telemetry.SummaryCanMissALiveFlag | apps/api/internal/trip/geo.go:191-195 | a run with one point 1000.02 m off the route: the live flag is raised and the summary's is not |
| Telemetry.RoundingIsNearest | apps/api/internal/trip/geo.go:203 | the rounded distance is the nearest tenth, the upper of two |
| Telemetry.OngoingTrip.OnTelemetry | apps/api/internal/trip/service.go:674-758 | the rows after a batch, with both invariants kept |
| Telemetry.OngoingTrip.Track | apps/api/internal/trip/service.go:685-691 | the points with a position, in order |
| Telemetry.OngoingTrip.Raise | apps/api/internal/trip/service.go:725-750 | the loop over the sorted points |
| Telemetry.DeviationNeverFalls | apps/api/internal/trip/store.go:572-575 | no batch lowers the stored maximum or takes the flag back |
| Sampling.GapsAreEven | apps/api/internal/charging/rules.go:169-175 | picks are at least 1 apart and gaps differ by at most 1 |
| Sampling.PicksIncrease | apps/api/internal/charging/rules.go:176-180 | picks strictly increase, so the duplicate skip never fires |
| Sampling.PicksBothEnds | apps/api/internal/charging/rules.go:162-183 | the first and the last point are picked |
| Sampling.PickIsNearest | apps/api/internal/charging/rules.go:169-172 | a picked index is the nearest whole number to its multiple of the exact step, the upper of two |
| Sampling.Thin | apps/api/internal/charging/rules.go:163-183 | all points, or exactly max of them at the picked indices |
| Sampling.SampleEvenly | apps/web/src/utils/geo.ts:137-144 | the same points as Thin wherever both sample |
| Simplify.SimplifyIndices | apps/web/src/utils/geo.ts:104-130 | the indices kept, ascending, are exactly those of the recursive definition |
| Simplify.FindSplit | apps/web/src/utils/geo.ts:113-121 | the first farthest point beyond the tolerance, if there is one |
| Simplify.OrderDoesNotMatter | apps/web/src/utils/geo.ts:110-126 | any order of taking segments from the worklist keeps the same points |
| Simplify.AnyPickPreserves | apps/web/src/utils/geo.ts:112-125 | one step of the loop, whichever segment it takes, leaves kept plus pending and lessens the work |
| Simplify.SplitIsUnique | apps/web/src/utils/geo.ts:113-121 | at most one point can be the split of a segment |
| Simplify.DroppedPointsAreClose | apps/web/src/utils/geo.ts:100-130 | each dropped point is within the tolerance of the segment joining its neighbouring kept points |
| Simplify.Idempotent | apps/web/src/utils/geo.ts:104-134 | simplifying a simplified path drops nothing |
| Simplify.KeptPointsStandOut | apps/web/src/utils/geo.ts:112-125 | nothing is kept without need: each kept inner point is off the segment between two kept points by more than the tolerance, and the first farthest there |
| Geometry.FootIsNearest | apps/web/src/utils/geo.ts:89-98 | the clamped projection is the nearest point of the segment |
| Geometry.DrawnLineIsClose | apps/web/src/utils/geo.ts:100-134 | each dropped point is within the tolerance of a point of the drawn line |

## Left out

- HTTP handlers, audit, notifications, WebSocket pushes, exports, list and filter queries: input and output.
- The pricing engine (`billing/engine`): a calculation of its own; a price is any non-negative number of cents, which is what it gives.
- Floating point, haversine and the equirectangular projection: cents, integers and reals; the distance from the route is an input of Telemetry, and Simplify works for any distance function (Geometry for the planar squared one).
- The device's way of starting a trip (cards, drivers, matching a request): it ends in the same transaction, and every run of starts is covered whatever was read before.
- Trips without a request, which no code in the modelled files makes, and rows deleted by other modules.
- Windows of requests that are created or assigned at the same moment: the conflict query takes no lock on the vehicle, so the windows are claimed for requests served one at a time only.
- A joint window invariant of requests and bookings: requests do not consult bookings (see ModulesAgreeUnlessBooked).
- The vehicle's own status after a booking departs or completes, or a trip starts or ends: vstatus is not part of this model, and vehicle rows may change at any time.
- The level-2 rules other than the night window, and the choice of the level-2 approver: inputs of a new request.
- Choosing the vehicle of a charging session, the energy cross-check and the meter curve other than its sampling: whether a vehicle is bound and whether the deviation is too large are inputs.
- Concurrent reviews and finishes of one charging session, and a debit whose commit is reported failed although it happened.
- Foreign-key share locks and the row lock a posting takes on nothing else than its account; a transaction commits as a whole or leaves no trace.
- Sub-cent costs and penalties in the settlement, which are priced in whole cents.
- Daylight saving in Shanghai before 1992: the offset is eight hours throughout.
- Several tenants: every table is one tenant's.
- Server shutdown of the connections, the ping loop and the frame codec.
- Charging.ChargingDesk.PriceAndCharge: the accounts behind the postings are those of Ledger and are not repeated here.
