/**
 * The service methods as they run: rows updated in place inside one database transaction, in the order the
 * source writes them, with a rollback when a compare-and-swap matches no row.
 */
module Store {
  import opened Prelude
  import opened Workflow
  import opened Records
  import opened Steps
  import GbjChecklist

  /** The call was refused for the reason in spec and changed nothing, or it left exactly what spec says. */
  ghost predicate Settled(spec: Outcome, before: Dossier, after: Dossier, refused: Option<Reason>) {
    match spec
    case Ok(next) => refused == None && after == next
    case Err(reason) => refused == Some(reason) && after == before
  }

  class Database {
    var row: Row
    var inWeights: seq<Version>
    var outWeights: seq<Version>
    var vehicleChecks: seq<Version>
    var materialChecks: seq<Version>
    var warehousing: seq<Version>
    var history: seq<Edge>
    var corrections: seq<Correction>
    var items: seq<StoredItem>
    var fraudChecks: seq<FraudCheck>

    function State(): Dossier
      reads this
    {
      Dossier(row, Tables(inWeights, outWeights, vehicleChecks, materialChecks, warehousing),
              history, corrections, items, fraudChecks)
    }

    constructor (pt: ProcessType, info: map<Field, Json>)
      ensures State() == NewDossier(pt, info)
      ensures row.processType == pt && row.status == Registered && row.revision == 1 && !row.isVoided
      ensures State().tables == Tables([], [], [], [], []) && history == [Edge(None, Registered)]
      ensures corrections == [] && items == [] && fraudChecks == []
    {
      row := NewDossier(pt, info).row;
      inWeights, outWeights, vehicleChecks, materialChecks, warehousing := [], [], [], [], [];
      history := [Edge(None, Registered)];
      corrections, items, fraudChecks := [], [], [];
    }

    method Rollback(saved: Dossier)
      modifies this
      ensures State() == saved
    {
      row, history, corrections, items := saved.row, saved.history, saved.corrections, saved.items;
      inWeights, outWeights := saved.tables.inWeights, saved.tables.outWeights;
      vehicleChecks, materialChecks := saved.tables.vehicleChecks, saved.tables.materialChecks;
      warehousing, fraudChecks := saved.tables.warehousing, saved.fraudChecks;
    }

    method Write(t: TableId, vs: seq<Version>)
      modifies this
      ensures State() == old(State()).(tables := old(State()).tables.Set(t, vs))
    {
      match t
      case InWeights => inWeights := vs;
      case OutWeights => outWeights := vs;
      case VehicleChecks => vehicleChecks := vs;
      case MaterialChecks => materialChecks := vs;
      case Warehousing => warehousing := vs;
    }

    method AppendHistory(from: Status, to: Status)
      modifies this`history
      ensures history == old(history) + [Edge(Some(from), to)]
    {
      history := history + [Edge(Some(from), to)];
    }

    // ----- Weighbridge -----

    method WeighIn(weight: real, ticket: Json, remarks: Json, now: int, snap: Row) returns (refused: Option<Reason>)
      modifies this
      ensures Settled(CommitWeighIn(weight, ticket, remarks, now, snap, old(State())), old(State()), State(), refused)
    {
      hide HasCurrent, Inserted, WeighRecord, TransitionAllowed, Claims;
      var saved := State();
      if HasCurrent(inWeights) {
        return Some(DuplicateRecord);
      }
      inWeights := Inserted(inWeights, WeighRecord(weight, ticket, remarks));
      var refusal := if !TransitionAllowed(snap.status, QcVehiclePending) then Some(InvalidTransition)
                     else if !Claims(row, Registered, snap.revision) then Some(Conflict)
                     else None;
      if refusal.Some? {
        Rollback(saved);
        return refusal;
      }
      row := row.(
        status := QcVehiclePending, weighInAt := Some(now), revision := row.revision + 1,
        grossWeight := if Inbound(snap.processType) then Some(weight) else row.grossWeight,
        tareWeight := if Inbound(snap.processType) then row.tareWeight else Some(weight),
        qcStartAt := if snap.qcStartAt.None? then Some(now) else row.qcStartAt);
      AppendHistory(snap.status, QcVehiclePending);
      return None;
    }

    /** A rejected truck's net weight is not allowed below zero. */
    static method FinalWeights(weight: real, snap: Dossier) returns (gross: real, tare: real, net: real)
      requires KnownInWeight(snap).Some?
      ensures gross == FinalGross(snap, weight) && tare == FinalTare(snap, weight)
      ensures net == if Rejected(snap.row.status) then NonNegative(gross - tare) else gross - tare
    {
      if Inbound(snap.row.processType) {
        gross, tare := KnownInWeight(snap).value, weight;
      } else {
        gross, tare := weight, KnownInWeight(snap).value;
      }
      net := gross - tare;
      if Rejected(snap.row.status) && net < 0.0 {
        net := 0.0;
      }
    }

    method WeighOut(weight: real, ticket: Json, remarks: Json, now: int, snap: Dossier)
      returns (refused: Option<Reason>)
      requires KnownInWeight(snap).Some?
      modifies this
      ensures Settled(CommitWeighOut(weight, ticket, remarks, now, snap, old(State())), old(State()), State(), refused)
    {
      hide HasCurrent, Inserted, KnownInWeight, Claims, Assess, WeighRecord, TransitionAllowed, Rejected, NonNegative,
        FinalGross, FinalTare;
      var gross, tare, net := FinalWeights(weight, snap);
      var saved := State();
      if HasCurrent(outWeights) {
        return Some(DuplicateRecord);
      }
      outWeights := Inserted(outWeights, WeighRecord(weight, ticket, remarks));
      var refusal := if !TransitionAllowed(snap.row.status, WeighOutDone) then Some(InvalidTransition)
                     else if !Claims(row, snap.row.status, snap.row.revision) then Some(Conflict)
                     else None;
      if refusal.Some? {
        Rollback(saved);
        return refusal;
      }
      row := row.(
        status := WeighOutDone, weighOutAt := Some(now), grossWeight := Some(gross), tareWeight := Some(tare),
        netWeight := Some(net), revision := row.revision + 1);
      AppendHistory(snap.row.status, WeighOutDone);
      if snap.row.actualWeight.Some? {
        fraudChecks := fraudChecks + [Assess(net, snap.row.actualWeight.value)];
      }
      return None;
    }

    // ----- Quality control -----

    method StartQc(now: int, snap: Row) returns (refused: Option<Reason>)
      requires QcStarted(snap.status).Some?
      modifies this
      ensures Settled(CommitStartQc(now, snap, old(State())), old(State()), State(), refused)
    {
      var next := QcStarted(snap.status).value;
      if !Claims(row, snap.status, snap.revision) {
        return Some(Conflict);
      }
      row := row.(status := next, revision := row.revision + 1);
      if snap.status == QcVehiclePending {
        row := row.(qcStartAt := OrNow(snap.qcStartAt, now));
      } else {
        row := row.(incomingQcStartAt := OrNow(snap.incomingQcStartAt, now));
      }
      AppendHistory(snap.status, next);
      return None;
    }

    /** The claim comes first here, so a refusal has nothing to undo. */
    method SubmitVehicleCheck(
      form: GbjChecklist.Request, checks: map<Field, bool>, notes: Json, checklist: Json, now: int, snap: Row)
      returns (refused: Option<Reason>)
      requires VehicleVerdict(snap.processType, form).Some?
      modifies this
      ensures Settled(CommitVehicleCheck(form, checks, notes, checklist, now, snap, old(State())), old(State()),
        State(), refused)
    {
      var next := Verdict(VehicleVerdict(snap.processType, form).value);
      if !Claims(row, snap.status, snap.revision) {
        return Some(Conflict);
      }
      row := row.(
        status := next, revision := row.revision + 1, qcStartAt := OrNow(snap.qcStartAt, now), qcEndAt := Some(now));
      vehicleChecks := Inserted(vehicleChecks,
        VehicleRecord(snap.processType, form, checks, notes, checklist, OrNow(snap.qcStartAt, now), now));
      AppendHistory(snap.status, next);
      return None;
    }

    method SubmitIncomingCheck(passed: bool, details: map<Field, Json>, now: int, snap: Row)
      returns (refused: Option<Reason>)
      modifies this
      ensures Settled(CommitIncomingCheck(passed, details, now, snap, old(State())), old(State()), State(), refused)
    {
      hide HasCurrent, Inserted, MaterialColumns, Claims, OrNow;
      var saved := State();
      if HasCurrent(materialChecks) {
        return Some(DuplicateRecord);
      }
      materialChecks := Inserted(materialChecks, MaterialColumns(details)
        + map[CheckOutcome := ResultWord(passed), StartedAt := OptDate(OrNow(snap.incomingQcStartAt, now)),
          CompletedAt := Date(now)]);
      if !Claims(row, snap.status, snap.revision) {
        Rollback(saved);
        return Some(Conflict);
      }
      row := row.(
        status := MaterialVerdict(passed), revision := row.revision + 1,
        incomingQcStartAt := OrNow(snap.incomingQcStartAt, now), qcEndAt := Some(now));
      AppendHistory(snap.status, MaterialVerdict(passed));
      return None;
    }

    method CompleteAnalysis(note: Option<string>, now: int, snap: Row) returns (refused: Option<Reason>)
      modifies this
      ensures Settled(CommitCompleteAnalysis(note, now, snap, old(State())), old(State()), State(), refused)
    {
      hide ActiveAt;
      if !Claims(row, WarehouseInProgress, snap.revision) {
        return Some(Conflict);
      }
      row := row.(revision := row.revision + 1, analysisCompletedAt := Some(now));
      if note.Some? {
        row := row.(info := row.info[Remarks := Text(note.value)]);
        var active := ActiveAt(warehousing);
        if active.Some? {
          var process := warehousing[active.value];
          warehousing := warehousing[active.value := process.(fields := process.fields[Remarks := Text(note.value)])];
        }
      }
      return None;
    }

    // ----- Warehouse -----

    method StartWarehouse(remarks: Json, now: int, snap: Row) returns (refused: Option<Reason>)
      modifies this
      ensures Settled(CommitStartWarehouse(remarks, now, snap, old(State())), old(State()), State(), refused)
    {
      if !Claims(row, QcVehiclePassed, snap.revision) {
        return Some(Conflict);
      }
      row := row.(
        revision := row.revision + 1, status := WarehouseInProgress,
        warehouseStartAt := OrNow(snap.warehouseStartAt, now));
      warehousing := Inserted(warehousing, map[StartAt := Date(now), Remarks := remarks]);
      AppendHistory(snap.status, WarehouseInProgress);
      return None;
    }

    /** Finishes the active process in place; without one a finished process is inserted. */
    method FinishProcess(measured: map<Field, Json>, startedAt: Json)
      modifies this`warehousing
      ensures warehousing == FinishedProcess(old(warehousing), measured, startedAt)
    {
      var active := ActiveAt(warehousing);
      if active.Some? {
        var process := warehousing[active.value];
        warehousing := warehousing[active.value := process.(fields := process.fields + measured)];
      } else {
        warehousing := Inserted(warehousing, map[StartAt := startedAt] + measured);
      }
    }

    method CompleteWarehouse(
      actualWeight: Option<real>, actualQuantity: Option<real>, details: map<Field, Json>, now: int, snap: Row)
      returns (refused: Option<Reason>)
      modifies this
      ensures Settled(CommitCompleteWarehouse(actualWeight, actualQuantity, details, now, snap, old(State())),
                      old(State()), State(), refused)
    {
      hide FinishedProcess, Measured, OrNow, AfterWarehouse, Claims;
      var next := AfterWarehouse(snap.processType);
      if !Claims(row, WarehouseInProgress, snap.revision) || row.warehouseEndAt.Some? {
        return Some(Conflict);
      }
      row := row.(
        status := next, warehouseStartAt := OrNow(snap.warehouseStartAt, now), warehouseEndAt := Some(now),
        actualWeight := if actualWeight.Some? then actualWeight else row.actualWeight,
        actualQuantity := if actualQuantity.Some? then actualQuantity else row.actualQuantity,
        info := if Unit in details then row.info[WarehouseUnit := details[Unit]] else row.info,
        revision := row.revision + 1);
      var measured := Measured(actualWeight, actualQuantity, details, now);
      FinishProcess(measured, OptDate(OrNow(snap.warehouseStartAt, now)));
      AppendHistory(snap.status, next);
      return None;
    }

    method SubmitIncomingAtWarehouse(passed: bool, notes: Json, now: int, snap: Row) returns (refused: Option<Reason>)
      modifies this
      ensures Settled(CommitIncomingAtWarehouse(passed, notes, now, snap, old(State())), old(State()), State(), refused)
    {
      var saved := State();
      materialChecks := Inserted(materialChecks,
        map[CheckOutcome := ResultWord(passed), Notes := notes, CompletedAt := Date(now)]);
      if !Claims(row, snap.status, snap.revision) {
        Rollback(saved);
        return Some(Conflict);
      }
      row := row.(revision := row.revision + 1, status := MaterialVerdict(passed), qcEndAt := Some(now));
      AppendHistory(snap.status, MaterialVerdict(passed));
      return None;
    }

    // ----- Gate, cancellation and void -----

    method CheckOut(now: int, snap: Row) returns (refused: Option<Reason>)
      modifies this
      ensures Settled(CommitCheckOut(now, snap, old(State())), old(State()), State(), refused)
    {
      if !Claims(row, WeighOutDone, snap.revision) {
        return Some(Conflict);
      }
      row := row.(revision := row.revision + 1, status := Completed, gateOutAt := Some(now), completedAt := Some(now));
      AppendHistory(snap.status, Completed);
      return None;
    }

    method CancelAtGate(why: string, now: int, snap: Row) returns (refused: Option<Reason>)
      modifies this
      ensures Settled(CommitCancelAtGate(why, now, snap, old(State())), old(State()), State(), refused)
    {
      if !Claims(row, snap.status, snap.revision) {
        return Some(Conflict);
      }
      row := row.(
        revision := row.revision + 1, status := Cancelled, cancelledAt := Some(now),
        info := row.info[CancellationReason := Text(why)]);
      AppendHistory(snap.status, Cancelled);
      return None;
    }

    method Cancel(why: string, now: int, snap: Row) returns (refused: Option<Reason>)
      modifies this
      ensures Settled(CommitCancel(why, now, snap, old(State())), old(State()), State(), refused)
    {
      if row.revision != snap.revision || Terminal(row.status) {
        return Some(Conflict);
      }
      row := row.(
        status := Cancelled, cancelledAt := Some(now), info := row.info[CancellationReason := Text(why)],
        revision := row.revision + 1);
      AppendHistory(snap.status, Cancelled);
      return None;
    }

    method Void(expectedRevision: int, why: string, now: int, snap: Row) returns (refused: Option<Reason>)
      modifies this
      ensures Settled(CommitVoid(expectedRevision, why, now, snap, old(State())), old(State()), State(), refused)
    {
      if row.revision != expectedRevision || row.status == Completed || row.isVoided {
        return Some(Conflict);
      }
      var reason := FieldOf(snap.info, CancellationReason);
      if reason in {Null, Text("")} {
        reason := Text(why);
      }
      row := row.(
        status := Cancelled, isVoided := true, voidedAt := Some(now), info := row.info[CancellationReason := reason],
        cancelledAt := OrNow(snap.cancelledAt, now), revision := row.revision + 1);
      if snap.status != Cancelled {
        AppendHistory(snap.status, Cancelled);
      }
      return None;
    }
  }
}
