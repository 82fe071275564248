/**
 * What each status says about the times and measurements on the row, and what a call writes to the record beside it.
 */
module Timeline {
  import opened Prelude
  import opened Workflow
  import opened Records
  import opened Steps
  import opened Corrections
  import opened Protocol
  import opened Stages
  import GbjChecklist

  predicate BeforeVerdict(s: Status) {
    s == Registered || s == QcVehiclePending || s == QcVehicleInProgress
  }

  predicate BeforeWarehouse(s: Status) {
    BeforeVerdict(s) || s == QcVehiclePassed || s == QcVehicleRejected
  }

  /** Nothing on the row stems from a stage after its status; a finished transaction carries the times of its finish. */
  predicate Timely(row: Row) {
    && (!Terminal(row.status) && row.status != WeighOutDone ==> row.weighOutAt.None?)
    && (row.status == Completed <==> row.completedAt.Some?) && row.gateOutAt == row.completedAt
    && (row.status == Cancelled <==> row.cancelledAt.Some?)
    && (row.status == WeighOutDone ==> row.weighOutAt.Some? && row.netWeight.Some?)
    && (row.isVoided ==> row.status == Cancelled && row.voidedAt.Some?)
    && (row.status == Registered ==> row.weighInAt.None? && row.qcStartAt.None?)
    && (BeforeVerdict(row.status) ==> row.qcEndAt.None?)
    && (BeforeWarehouse(row.status) ==>
        row.warehouseStartAt.None? && row.warehouseEndAt.None? && row.analysisCompletedAt.None?)
    && (BeforeWarehouse(row.status) || row.status == WarehouseInProgress ==>
        row.actualWeight.None? && row.actualQuantity.None? && row.incomingQcStartAt.None?)
    && (row.status == IncomingCheckPending ==> row.incomingQcStartAt.None?)
    && (row.status == WarehouseInProgress ==> row.warehouseStartAt.Some?)
    && (row.status == WarehouseDone ==> row.warehouseStartAt.Some? && row.warehouseEndAt.Some?)
  }

  lemma WarehouseTimely(f: Forward, s: Dossier)
    requires Staged(s) && Timely(s.row) && ApplyForward(f, s).Ok?
    requires f.StartWarehouse? || f.CompleteWarehouse? || f.CompleteAnalysis? || f.SubmitIncomingAtWarehouse?
    ensures Timely(ApplyForward(f, s).value.row)
  {
    hide HasCurrent, Inserted, FinishedProcess, Annotated, Measured, LaterTables, ActiveAt;
  }

  lemma VehicleCheckTimely(
    form: GbjChecklist.Request, checks: map<Field, bool>, notes: Json, checklist: Json, now: int, s: Dossier)
    requires Timely(s.row) && ReadVehicleCheck(form, s).None?
    requires CommitVehicleCheck(form, checks, notes, checklist, now, s.row, s).Ok?
    ensures Timely(CommitVehicleCheck(form, checks, notes, checklist, now, s.row, s).value.row)
  {
    hide HasCurrent, Inserted, VehicleRecord, VehicleVerdict, TransitionAllowed;
  }

  lemma IncomingCheckTimely(passed: bool, details: map<Field, Json>, now: int, s: Dossier)
    requires Timely(s.row) && ReadIncomingCheck(passed, s).None?
      && CommitIncomingCheck(passed, details, now, s.row, s).Ok?
    ensures Timely(CommitIncomingCheck(passed, details, now, s.row, s).value.row)
  {
    hide HasCurrent, Inserted, MaterialColumns, TransitionAllowed;
  }

  lemma OtherTimely(f: Forward, s: Dossier)
    requires Staged(s) && Timely(s.row) && ApplyForward(f, s).Ok?
    requires f.WeighIn? || f.WeighOut? || f.StartQc? || f.CheckOut?
    ensures Timely(ApplyForward(f, s).value.row)
  {
    hide HasCurrent, Inserted, KnownInWeight, LaterTables, ActiveAt;
  }

  lemma CancellingTimely(f: Forward, s: Dossier)
    requires Timely(s.row) && ApplyForward(f, s).Ok?
    requires f.CancelAtGate? || f.Cancel? || f.Void?
    ensures Timely(ApplyForward(f, s).value.row)
  {}

  lemma ForwardTimely(f: Forward, s: Dossier)
    requires Staged(s) && Timely(s.row) && ApplyForward(f, s).Ok?
    ensures Timely(ApplyForward(f, s).value.row)
  {
    hide Staged, Timely;
    match f
    case StartWarehouse(_, _) => WarehouseTimely(f, s);
    case CompleteWarehouse(_, _, _, _) => WarehouseTimely(f, s);
    case CompleteAnalysis(_, _) => WarehouseTimely(f, s);
    case SubmitIncomingAtWarehouse(_, _, _) => WarehouseTimely(f, s);
    case SubmitVehicleCheck(form, checks, notes, checklist, now) =>
      VehicleCheckTimely(form, checks, notes, checklist, now, s);
    case SubmitIncomingCheck(passed, details, now) => IncomingCheckTimely(passed, details, now, s);
    case CancelAtGate(_, _) => CancellingTimely(f, s);
    case Cancel(_, _) => CancellingTimely(f, s);
    case Void(_, _, _) => CancellingTimely(f, s);
    case _ => OtherTimely(f, s);
  }

  lemma ReopenTimely(req: CorrectionRequest, target: Status, s: Dossier)
    requires Timely(s.row) && !s.row.isVoided && Reopen(req, target, s).Ok?
    ensures Timely(Reopen(req, target, s).value.row)
  {
    hide ClearedTables, FraudAfter, GrossUnderTare, StartsAfterEnd;
  }

  lemma DataCorrectionTimely(rt: Runtime, req: CorrectionRequest, s: Dossier)
    requires Timely(s.row) && Terminal(s.row.status) && CorrectRecords(rt, req, s).Ok?
    ensures Timely(CorrectRecords(rt, req, s).value.row)
  {
    hide SortItems, SupersedeGroups, RowChanges, HasChanges, ChangesTaken, FraudAfter;
  }

  /**
   * In every run the row carries no time and no measurement of a stage its status has not reached, reopenings included.
   */
  lemma {:induction false} RunTimely(rt: Runtime, pt: ProcessType, info: map<Field, Json>, reqs: seq<Request>)
    ensures Timely(Run(rt, NewDossier(pt, info), reqs).row)
  {
    hide Staged, Lineages, Timely, ReadForward, CommitForward, CorrectRecords, Reopen;
    if reqs == [] {
      FreshTimely(pt, info);
    } else {
      var init, req := reqs[..|reqs| - 1], reqs[|reqs| - 1];
      var before := Run(rt, NewDossier(pt, info), init);
      RunTimely(rt, pt, info, init);
      RunStaged(rt, pt, info, init);
      if Apply(rt, req, before).Ok? {
        match req
        case Move(f) => ForwardTimely(f, before);
        case Correct(c) =>
          if c.action == ReopenWorkflow {
            ReopenTimely(c, c.reopenTarget.value, before);
          } else {
            DataCorrectionTimely(rt, c, before);
          }
      }
    }
  }

  lemma FreshTimely(pt: ProcessType, info: map<Field, Json>)
    ensures Timely(NewDossier(pt, info).row)
  {}

  // ----- The record a call writes -----

  /** The one child table a forward call may touch. */
  function OwnTable(f: Forward): Option<TableId> {
    match f
    case WeighIn(_, _, _, _) => Some(InWeights)
    case WeighOut(_, _, _, _) => Some(OutWeights)
    case SubmitVehicleCheck(_, _, _, _, _) => Some(VehicleChecks)
    case SubmitIncomingCheck(_, _, _) => Some(MaterialChecks)
    case SubmitIncomingAtWarehouse(_, _, _) => Some(MaterialChecks)
    case StartWarehouse(_, _) => Some(Warehousing)
    case CompleteWarehouse(_, _, _, _) => Some(Warehousing)
    case CompleteAnalysis(_, _) => Some(Warehousing)
    case _ => None
  }

  /** Forward calls leave every other table, the corrections and their items alone, and only append elsewhere. */
  lemma ForwardFrame(f: Forward, s: Dossier)
    requires ApplyForward(f, s).Ok?
    ensures var after := ApplyForward(f, s).value;
      && (forall t :: Some(t) != OwnTable(f) ==> after.tables.Get(t) == s.tables.Get(t))
      && after.corrections == s.corrections && after.items == s.items
      && s.history <= after.history && s.fraudChecks <= after.fraudChecks
      && (after.fraudChecks != s.fraudChecks ==> f.WeighOut?)
  {
    hide HasCurrent, CurrentAt, Inserted, FinishedProcess, Annotated, VehicleRecord, VehicleVerdict, Measured,
         KnownInWeight, Assess;
  }

  ghost predicate NewestIs(vs: seq<Version>, before: seq<Version>) {
    |vs| == |before| + 1 && vs[..|before|] == before && vs[|before|].isCurrent && vs[|before|].revision == |vs|
  }

  lemma InsertedNewest(s: Dossier, t: TableId, fields: map<Field, Json>)
    requires Lineages(s)
    ensures var vs := Inserted(s.tables.Get(t), fields); NewestIs(vs, s.tables.Get(t)) && vs[|vs| - 1].fields == fields
  {
    assert Lineage(s.tables.Get(t), |s.corrections|);
    MaxRevisionOfLineage(s.tables.Get(t), |s.corrections|);
  }

  lemma GbjModes(form: GbjChecklist.Request)
    ensures var d := GbjChecklist.Decide(GbjChecklist.SEVERITY, form); d.Ok? ==>
      && (d.value.outcome == GbjChecklist.Reject <==> d.value.mode == GbjChecklist.RejectedMode)
      && (d.value.outcome == GbjChecklist.Pass && d.value.hasDeviation ==>
          d.value.mode == GbjChecklist.ApprovedWithDeviation && d.value.deviationReason.Some?)
      && (d.value.outcome == GbjChecklist.Reject ==> d.value.hasDeviation)
  {}

  /** What a vehicle check record says: the verdict and, for GBJ, the decision taken. */
  ghost predicate Says(pt: ProcessType, fields: map<Field, Json>, passed: bool) {
    && FieldOf(fields, CheckOutcome) == Text(if passed then "PASS" else "REJECT")
    && (pt == GBJ && passed && FieldOf(fields, HasDeviation) == Flag(true) ==>
        FieldOf(fields, DecisionMode) == Text("APPROVED_WITH_DEVIATION") && FieldOf(fields, DeviationReason).Text?)
    && (pt == GBJ && !passed ==>
      FieldOf(fields, DecisionMode) == Text("REJECTED") && FieldOf(fields, HasDeviation) == Flag(true))
  }

  lemma InboundRecordSays(
    pt: ProcessType, form: GbjChecklist.Request, checks: map<Field, bool>, notes: Json, checklist: Json,
    startedAt: Option<int>, now: int)
    requires Inbound(pt)
    ensures RecordSays(pt, form, VehicleRecord(pt, form, checks, notes, checklist, startedAt, now), startedAt, now)
  {
    hide GbjChecklist.Decide;
  }

  lemma GbjRecordFields(
    form: GbjChecklist.Request, checks: map<Field, bool>, notes: Json, checklist: Json, startedAt: Option<int>,
    now: int)
    requires VehicleVerdict(GBJ, form).Some?
    ensures var fields := VehicleRecord(GBJ, form, checks, notes, checklist, startedAt, now);
      var d := GbjChecklist.Decide(GbjChecklist.SEVERITY, form).value;
      && FieldOf(fields, CheckOutcome) == ResultWord(VehicleVerdict(GBJ, form).value)
      && FieldOf(fields, DecisionMode) == ModeWord(d.mode) && FieldOf(fields, HasDeviation) == Flag(d.hasDeviation)
      && (d.deviationReason.Some? ==> FieldOf(fields, DeviationReason) == Text(d.deviationReason.value))
      && FieldOf(fields, StartedAt) == OptDate(startedAt) && FieldOf(fields, CompletedAt) == Date(now)
  {
    hide GbjChecklist.Decide, ResultWord, ModeWord, OptDate;
  }

  lemma GbjRecordSays(
    form: GbjChecklist.Request, checks: map<Field, bool>, notes: Json, checklist: Json, startedAt: Option<int>,
    now: int)
    requires VehicleVerdict(GBJ, form).Some?
    ensures RecordSays(GBJ, form, VehicleRecord(GBJ, form, checks, notes, checklist, startedAt, now), startedAt, now)
  {
    hide GbjChecklist.Decide, VehicleRecord, FieldOf, OptDate;
    GbjModes(form);
    GbjRecordFields(form, checks, notes, checklist, startedAt, now);
  }

  ghost predicate RecordSays(
    pt: ProcessType, form: GbjChecklist.Request, fields: map<Field, Json>, startedAt: Option<int>, now: int)
    requires VehicleVerdict(pt, form).Some?
  {
    && Says(pt, fields, VehicleVerdict(pt, form).value)
    && FieldOf(fields, StartedAt) == OptDate(startedAt) && FieldOf(fields, CompletedAt) == Date(now)
  }

  /**
   * The recorded vehicle check says what the new status says, with the row's times; for GBJ it keeps the decision
   * taken.
   */
  lemma VehicleCheckRecorded(
    form: GbjChecklist.Request, checks: map<Field, bool>, notes: Json, checklist: Json, now: int, s: Dossier)
    requires Lineages(s) && ReadVehicleCheck(form, s).None?
    ensures var r := CommitVehicleCheck(form, checks, notes, checklist, now, s.row, s);
      && r.Ok?
      && var vs := r.value.tables.vehicleChecks;
      && NewestIs(vs, s.tables.vehicleChecks)
      && r.value.row.status in {QcVehiclePassed, QcVehicleRejected}
      && Says(s.row.processType, vs[|vs| - 1].fields, r.value.row.status == QcVehiclePassed)
      && FieldOf(vs[|vs| - 1].fields, StartedAt) == OptDate(r.value.row.qcStartAt) != Null
      && FieldOf(vs[|vs| - 1].fields, CompletedAt) == OptDate(r.value.row.qcEndAt) == Date(now)
  {
    hide HasCurrent, Inserted, VehicleVerdict, VehicleRecord, Says, NewestIs, Lineages, FieldOf;
    var startedAt := OrNow(s.row.qcStartAt, now);
    if s.row.processType == GBJ {
      GbjRecordSays(form, checks, notes, checklist, startedAt, now);
    } else {
      InboundRecordSays(s.row.processType, form, checks, notes, checklist, startedAt, now);
    }
    InsertedNewest(s, VehicleChecks, VehicleRecord(s.row.processType, form, checks, notes, checklist, startedAt, now));
  }

  ghost predicate MaterialRecorded(after: Dossier, before: Dossier, now: int) {
    var vs := after.tables.materialChecks;
    && NewestIs(vs, before.tables.materialChecks)
    && after.row.status in {IncomingCheckPassed, IncomingCheckRejected}
    && FieldOf(vs[|vs| - 1].fields, CheckOutcome) ==
      Text(if after.row.status == IncomingCheckPassed then "PASS" else "REJECT")
    && FieldOf(vs[|vs| - 1].fields, CompletedAt) == OptDate(after.row.qcEndAt) == Date(now)
  }

  /** Both services record the material verdict the status shows. */
  lemma MaterialCheckRecorded(passed: bool, details: map<Field, Json>, now: int, s: Dossier)
    requires Lineages(s) && Staged(s) && ReadIncomingCheck(passed, s).None?
    ensures var r := CommitIncomingCheck(passed, details, now, s.row, s); r.Ok? && MaterialRecorded(r.value, s, now)
  {
    hide HasCurrent, Inserted, Lineages, NewestIs, FieldOf, MaterialColumns;
    MaterialFields(passed, details, OptDate(OrNow(s.row.incomingQcStartAt, now)), now);
    InsertedNewest(s, MaterialChecks, MaterialColumns(details)
      + map[CheckOutcome := ResultWord(passed), StartedAt := OptDate(OrNow(s.row.incomingQcStartAt, now)),
        CompletedAt := Date(now)]);
    assert MaterialChecks in LaterTables(s.row.status) ==> !HasCurrent(s.tables.Get(MaterialChecks));
  }

  lemma MaterialFields(passed: bool, details: map<Field, Json>, startedAt: Json, now: int)
    ensures var fields := MaterialColumns(details)
      + map[CheckOutcome := ResultWord(passed), StartedAt := startedAt, CompletedAt := Date(now)];
      FieldOf(fields, CheckOutcome) == ResultWord(passed) && FieldOf(fields, CompletedAt) == Date(now)
  {
    hide MaterialColumns, ResultWord;
  }

  lemma MaterialCheckRecordedAtWarehouse(passed: bool, notes: Json, now: int, s: Dossier)
    requires Lineages(s) && ReadIncomingAtWarehouse(passed, s).None?
    ensures var r := CommitIncomingAtWarehouse(passed, notes, now, s.row, s); r.Ok? && MaterialRecorded(r.value, s, now)
  {
    hide HasCurrent, Inserted, Lineages, NewestIs;
    InsertedNewest(s, MaterialChecks,
      map[CheckOutcome := ResultWord(passed), Notes := notes, CompletedAt := Date(now)]);
  }

  /**
   * The analysis is done once, while goods are unloaded: the row shows when, and a note goes to the row and the
   * process.
   */
  lemma AnalysisRecorded(note: Option<string>, now: int, s: Dossier)
    requires Lineages(s) && Staged(s) && ReadCompleteAnalysis(s).None?
    ensures var r := CommitCompleteAnalysis(note, now, s.row, s);
      && r.Ok? && r.value.row.analysisCompletedAt == Some(now) && r.value.row.status == WarehouseInProgress
      && r.value.history == s.history
      && |r.value.tables.warehousing| == |s.tables.warehousing| > 0
      && (note.Some? ==>
          && FieldOf(r.value.row.info, Remarks) == Text(note.value)
          && FieldOf(r.value.tables.warehousing[|s.tables.warehousing| - 1].fields, Remarks) == Text(note.value))
      && (note.None? ==> r.value.tables == s.tables && r.value.row.info == s.row.info)
  {
    hide Lineages, ActiveAt, LaterTables, HasCurrent;
    OpenProcessIsLast(s);
  }

  /** A started process and the row agree on the start. */
  lemma StartRecorded(remarks: Json, now: int, s: Dossier)
    requires Lineages(s) && Timely(s.row) && ReadStartWarehouse(s).None?
    ensures var r := CommitStartWarehouse(remarks, now, s.row, s);
      && r.Ok? && NewestIs(r.value.tables.warehousing, s.tables.warehousing)
      && var fields := r.value.tables.warehousing[|s.tables.warehousing|].fields;
      && FieldOf(fields, StartAt) == OptDate(r.value.row.warehouseStartAt) == Date(now)
  {
    hide HasCurrent, Inserted, Lineages;
    InsertedNewest(s, Warehousing, map[StartAt := Date(now), Remarks := remarks]);
  }

  /** A finished process and the row agree on the end and on every figure given. */
  lemma CompletionRecorded(
    weight: Option<real>, quantity: Option<real>, details: map<Field, Json>, now: int, s: Dossier)
    requires Lineages(s) && Staged(s) && ReadCompleteWarehouse(weight, quantity, s).None?
    ensures var r := CommitCompleteWarehouse(weight, quantity, details, now, s.row, s);
      && r.Ok? && |r.value.tables.warehousing| == |s.tables.warehousing| > 0
      && var fields := r.value.tables.warehousing[|s.tables.warehousing| - 1].fields;
      && FieldOf(fields, EndAt) == OptDate(r.value.row.warehouseEndAt) == Date(now)
      && (weight.Some? ==> FieldOf(fields, ActualWeight) == OptNum(r.value.row.actualWeight) == OptNum(weight))
      && (quantity.Some? ==> FieldOf(fields, ActualQuantity) == OptNum(r.value.row.actualQuantity) == OptNum(quantity))
      && (Unit in details ==> FieldOf(fields, Unit) == FieldOf(r.value.row.info, WarehouseUnit) == details[Unit])
      && FieldOf(fields, Remarks) == FieldOf(details, Remarks)
  {
    hide HasCurrent, Inserted, LaterTables, Lineages, ActiveAt, Measured, TransitionAllowed;
    assert s.row.status == WarehouseInProgress;
    OpenProcessIsLast(s);
    MeasuredSays(weight, quantity, details, now);
  }

  lemma MeasuredSays(weight: Option<real>, quantity: Option<real>, details: map<Field, Json>, now: int)
    ensures var m := Measured(weight, quantity, details, now);
      && EndAt in m && m[EndAt] == Date(now)
      && (weight.Some? ==> ActualWeight in m && m[ActualWeight] == Num(weight.value))
      && (quantity.Some? ==> ActualQuantity in m && m[ActualQuantity] == Num(quantity.value))
      && (Unit in details ==> Unit in m && m[Unit] == details[Unit])
      && Remarks in m && m[Remarks] == FieldOf(details, Remarks)
  {}
}
