/** The transaction status graph, and the guards the client computes from a status. */
module Workflow {

  datatype ProcessType = GBB | GSP | GBJ

  datatype Status =
    | Registered
    | WeighInDone
    | QcVehiclePending
    | QcVehicleInProgress
    | QcVehiclePassed
    | QcVehicleRejected
    | WarehouseInProgress
    | WarehouseDone
    | IncomingCheckPending
    | IncomingCheckInProgress
    | IncomingCheckPassed
    | IncomingCheckRejected
    | WeighOutDone
    | Completed
    | Cancelled

  predicate Terminal(s: Status) {
    s == Completed || s == Cancelled
  }

  /** Material is checked on arrival for inbound goods only. */
  predicate Inbound(pt: ProcessType) {
    pt == GBB || pt == GSP
  }

  function Successors(s: Status): set<Status> {
    match s
    case Registered => {WeighInDone, QcVehiclePending, Cancelled}
    case WeighInDone => {QcVehiclePending, Cancelled}
    case QcVehiclePending => {QcVehicleInProgress, QcVehiclePassed, QcVehicleRejected, Cancelled}
    case QcVehicleInProgress => {QcVehiclePassed, QcVehicleRejected, Cancelled}
    case QcVehiclePassed => {WarehouseInProgress, Cancelled}
    case QcVehicleRejected => {WeighOutDone, Cancelled}
    case WarehouseInProgress => {IncomingCheckPending, WarehouseDone, Cancelled}
    case WarehouseDone => {WeighOutDone, Cancelled}
    case IncomingCheckPending => {IncomingCheckInProgress, IncomingCheckPassed, IncomingCheckRejected, Cancelled}
    case IncomingCheckInProgress => {IncomingCheckPassed, IncomingCheckRejected, Cancelled}
    case IncomingCheckPassed => {WeighOutDone, Cancelled}
    case IncomingCheckRejected => {WeighOutDone, Cancelled}
    case WeighOutDone => {Completed, Cancelled}
    case Completed => {}
    case Cancelled => {}
  }

  predicate IsValidTransition(from: Status, to: Status) {
    from == to || to in Successors(from)
  }

  /** The source throws where this is false. */
  predicate TransitionAllowed(from: Status, to: Status) {
    !Terminal(from) && IsValidTransition(from, to)
  }

  /** Targets an administrator may reopen a terminal transaction to. */
  function ReopenTargets(pt: ProcessType): set<Status> {
    if Inbound(pt)
    then {Registered, QcVehiclePending, QcVehiclePassed, IncomingCheckPending}
    else {Registered, QcVehiclePending, QcVehiclePassed}
  }

  // ----- Length of a forward path -----

  function Rank(s: Status): nat {
    match s
    case Registered => 9
    case WeighInDone => 9
    case QcVehiclePending => 8
    case QcVehicleInProgress => 7
    case QcVehiclePassed => 6
    case QcVehicleRejected => 2
    case WarehouseInProgress => 5
    case WarehouseDone => 2
    case IncomingCheckPending => 4
    case IncomingCheckInProgress => 3
    case IncomingCheckPassed => 2
    case IncomingCheckRejected => 2
    case WeighOutDone => 1
    case Completed => 0
    case Cancelled => 0
  }

  /** Every edge of the graph goes down in rank, WeighInDone aside; terminal statuses have no way out. */
  lemma EdgesDescend(from: Status, to: Status)
    requires TransitionAllowed(from, to)
    ensures to != WeighInDone && from != to ==> Rank(to) < Rank(from)
    ensures Rank(from) == 0 <==> Terminal(from)
  {}

  // ----- Client guards, frontend/src/utils/statusFlow.js -----

  predicate ClientCanStartWarehouse(s: Status, pt: ProcessType) {
    s == QcVehiclePassed
  }

  predicate ClientCanWeighOut(s: Status, pt: ProcessType) {
    match pt
    case GBJ => s == WarehouseDone || s == QcVehicleRejected
    case _ => s == IncomingCheckPassed || s == IncomingCheckRejected || s == QcVehicleRejected
  }

  predicate ClientCanCheckOut(s: Status, pt: ProcessType) {
    s == WeighOutDone
  }
}
