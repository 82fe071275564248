/**
 * The service calls that move a transaction forward, cancel it or void it. Each is split as in the
 * source: a check on a snapshot read outside the database transaction, then an all-or-nothing commit
 * on the rows as they are then.
 */
module Steps {
  import opened Prelude
  import opened Workflow
  import opened Records
  import GbjChecklist

  datatype Reason =
    | MalformedInput | Final | WrongStatus | WrongProcessType | DuplicateRecord | InvalidTransition
    | MissingWeight | InvalidWeights | ChecklistRefused | AlreadyVoided | Conflict
    | ActionDisabled | NotTerminal | VoidedStays | FieldDenied | RecordMissing | NoChange
    | GrossBelowTare | StartAfterEnd | SupersededMeanwhile | TargetNotAllowed | ColumnRejected

  type Outcome = Result<Dossier, Reason>

  datatype Forward =
    | WeighIn(weight: real, ticket: Json, remarks: Json, now: int)
    | WeighOut(weight: real, ticket: Json, remarks: Json, now: int)
    | StartQc(now: int)
    | SubmitVehicleCheck(form: GbjChecklist.Request, checks: map<Field, bool>, notes: Json, checklist: Json, now: int)
    | SubmitIncomingCheck(passed: bool, details: map<Field, Json>, now: int)
    | SubmitIncomingAtWarehouse(passed: bool, notes: Json, now: int)
    | StartWarehouse(remarks: Json, now: int)
    | CompleteWarehouse(actualWeight: Option<real>, actualQuantity: Option<real>, details: map<Field, Json>, now: int)
    | CompleteAnalysis(note: Option<string>, now: int)
    | CheckOut(now: int)
    | CancelAtGate(why: string, now: int)
    | Cancel(why: string, now: int)
    | Void(expectedRevision: int, why: string, now: int)

  const MIN_WEIGHT := 0.01

  const VEHICLE_CHECKS: set<Field> :=
    {VehicleCleanliness, VehicleOdor, PestEvidence, VehicleCondition, DocumentCompleteness, SealCondition}

  const MATERIAL_DETAILS: set<Field> := {
    Odor, Color, Moisture, ForeignMatter, BeanCondition, SampleWeight, GoodBeanPercentage, ItemCondition,
    PackagingCondition, QuantityCheck, DocumentCheck, VisualInspection, DefectNotes, Notes
  }

  const WAREHOUSE_DETAILS: set<Field> := {Unit, PalletCount, BagCount, RollCount, Condition, Remarks}

  function Restrict(details: map<Field, Json>, allowed: set<Field>): map<Field, Json> {
    map f | f in details && f in allowed :: details[f]
  }

  /** The words an inspector may use for a check, upper or lower case; anything else is stored as null. */
  function MapToCheckResult(v: Json): (r: Json)
    ensures r in {Null, Text("PASS"), Text("REJECT"), Text("NA")}
  {
    match v
    case Text(word) =>
      var upper := ToUpper(word);
      if upper in ["PASS", "NORMAL", "OK", "GOOD"] then Text("PASS")
      else if upper in ["REJECT", "ABNORMAL", "NOT_OK", "BAD", "REJECTED"] then Text("REJECT")
      else if upper == "NA" then Text("NA")
      else Null
    case _ => Null
  }

  function BooleanToCheckResult(v: Json): (r: Json)
    ensures r in {Null, Text("PASS"), Text("REJECT")}
  {
    match v
    case Flag(b) => ResultWord(b)
    case _ => Null
  }

  function CheckColumn(f: Field, v: Json): Json {
    if f in {Odor, Color} then MapToCheckResult(v)
    else if f in {BeanCondition, ItemCondition, PackagingCondition, QuantityCheck, DocumentCheck, VisualInspection}
    then BooleanToCheckResult(v)
    else v
  }

  /** The columns of a material check as built from the submitted form. */
  function MaterialColumns(details: map<Field, Json>): map<Field, Json> {
    map f | f in details && f in MATERIAL_DETAILS :: CheckColumn(f, details[f])
  }

  function OrNow(o: Option<int>, now: int): Option<int> {
    if o.Some? then o else Some(now)
  }

  function ResultWord(passed: bool): Json {
    Text(if passed then "PASS" else "REJECT")
  }

  function ModeWord(m: GbjChecklist.Mode): Json {
    match m
    case NormalPass => Text("NORMAL_PASS")
    case ApprovedWithDeviation => Text("APPROVED_WITH_DEVIATION")
    case RejectedMode => Text("REJECTED")
  }

  /** The compare-and-swap every forward commit makes. */
  predicate Claims(row: Row, status: Status, revision: int) {
    row.status == status && row.revision == revision
  }

  function WeightOf(fields: map<Field, Json>): Option<real> {
    match FieldOf(fields, Weight)
    case Num(n) => Some(n)
    case _ => None
  }

  // ----- Weights -----

  function WeighRecord(weight: real, ticket: Json, remarks: Json): map<Field, Json> {
    map[Weight := Num(weight), TicketNumber := ticket, Remarks := remarks]
  }

  function ReadWeighIn(weight: real, s: Dossier): Option<Reason> {
    if weight < MIN_WEIGHT then Some(MalformedInput)
    else if Terminal(s.row.status) then Some(Final)
    else if s.row.status != Registered then Some(WrongStatus)
    else if HasCurrent(s.tables.inWeights) then Some(DuplicateRecord)
    else None
  }

  function CommitWeighIn(weight: real, ticket: Json, remarks: Json, now: int, snap: Row, db: Dossier): Outcome {
    if HasCurrent(db.tables.inWeights) then Err(DuplicateRecord)
    else if !TransitionAllowed(snap.status, QcVehiclePending) then Err(InvalidTransition)
    else if !Claims(db.row, Registered, snap.revision) then Err(Conflict)
    else Ok(db.(
      tables := db.tables.Set(InWeights, Inserted(db.tables.inWeights, WeighRecord(weight, ticket, remarks))),
      row := db.row.(
        status := QcVehiclePending,
        revision := db.row.revision + 1,
        weighInAt := Some(now),
        grossWeight := if Inbound(snap.processType) then Some(weight) else db.row.grossWeight,
        tareWeight := if Inbound(snap.processType) then db.row.tareWeight else Some(weight),
        qcStartAt := if snap.qcStartAt.None? then Some(now) else db.row.qcStartAt),
      history := db.history + [Edge(Some(snap.status), QcVehiclePending)]))
  }

  predicate WeighOutAllowed(pt: ProcessType, s: Status) {
    if Inbound(pt) then s in {IncomingCheckPassed, IncomingCheckRejected, QcVehicleRejected, WarehouseDone}
    else s in {WarehouseDone, QcVehicleRejected}
  }

  predicate Rejected(s: Status) {
    s == IncomingCheckRejected || s == QcVehicleRejected
  }

  /** The in-weight used at weigh-out; inbound trucks fall back on the weighbridge record. */
  function KnownInWeight(s: Dossier): Option<real> {
    if s.row.processType == GBJ then s.row.tareWeight
    else if s.row.grossWeight.Some? then s.row.grossWeight
    else
      var i := CurrentAt(s.tables.inWeights);
      if i.Some? then WeightOf(s.tables.inWeights[i.value].fields) else None
  }

  function FinalGross(s: Dossier, weight: real): real
    requires KnownInWeight(s).Some?
  {
    if s.row.processType == GBJ then weight else KnownInWeight(s).value
  }

  function FinalTare(s: Dossier, weight: real): real
    requires KnownInWeight(s).Some?
  {
    if s.row.processType == GBJ then KnownInWeight(s).value else weight
  }

  function NonNegative(x: real): real {
    if x < 0.0 then 0.0 else x
  }

  function ReadWeighOut(weight: real, s: Dossier): Option<Reason> {
    if weight < MIN_WEIGHT then Some(MalformedInput)
    else if Terminal(s.row.status) then Some(Final)
    else if !WeighOutAllowed(s.row.processType, s.row.status) then Some(WrongStatus)
    else if HasCurrent(s.tables.outWeights) then Some(DuplicateRecord)
    else if KnownInWeight(s).None? then Some(MissingWeight)
    else if !Rejected(s.row.status) && FinalTare(s, weight) >= FinalGross(s, weight) then Some(InvalidWeights)
    else None
  }

  function CommitWeighOut(weight: real, ticket: Json, remarks: Json, now: int, snap: Dossier, db: Dossier): Outcome
    requires KnownInWeight(snap).Some?
  {
    var gross := FinalGross(snap, weight);
    var tare := FinalTare(snap, weight);
    var net := if Rejected(snap.row.status) then NonNegative(gross - tare) else gross - tare;
    if HasCurrent(db.tables.outWeights) then Err(DuplicateRecord)
    else if !TransitionAllowed(snap.row.status, WeighOutDone) then Err(InvalidTransition)
    else if !Claims(db.row, snap.row.status, snap.row.revision) then Err(Conflict)
    else Ok(db.(
      tables := db.tables.Set(OutWeights, Inserted(db.tables.outWeights, WeighRecord(weight, ticket, remarks))),
      row := db.row.(
        status := WeighOutDone,
        revision := db.row.revision + 1,
        weighOutAt := Some(now),
        grossWeight := Some(gross),
        tareWeight := Some(tare),
        netWeight := Some(net)),
      history := db.history + [Edge(Some(snap.row.status), WeighOutDone)],
      fraudChecks := db.fraudChecks +
        if snap.row.actualWeight.Some? then [Assess(net, snap.row.actualWeight.value)] else []))
  }

  // ----- Quality control -----

  function QcStarted(s: Status): Option<Status> {
    match s
    case QcVehiclePending => Some(QcVehicleInProgress)
    case IncomingCheckPending => Some(IncomingCheckInProgress)
    case _ => None
  }

  function ReadStartQc(s: Dossier): Option<Reason> {
    var next := QcStarted(s.row.status);
    if next.None? then Some(WrongStatus)
    else if !TransitionAllowed(s.row.status, next.value) then Some(InvalidTransition)
    else None
  }

  function CommitStartQc(now: int, snap: Row, db: Dossier): Outcome
    requires QcStarted(snap.status).Some?
  {
    var next := QcStarted(snap.status).value;
    if !Claims(db.row, snap.status, snap.revision) then Err(Conflict)
    else Ok(db.(
      row := db.row.(
        status := next,
        revision := db.row.revision + 1,
        qcStartAt := if snap.status == QcVehiclePending then OrNow(snap.qcStartAt, now) else db.row.qcStartAt,
        incomingQcStartAt :=
          if snap.status == IncomingCheckPending then OrNow(snap.incomingQcStartAt, now) else db.row.incomingQcStartAt),
      history := db.history + [Edge(Some(snap.status), next)]))
  }

  function Verdict(passed: bool): Status {
    if passed then QcVehiclePassed else QcVehicleRejected
  }

  /** The outcome: the caller's word for inbound goods, the server's decision on the checklist for GBJ. */
  function VehicleVerdict(pt: ProcessType, form: GbjChecklist.Request): Option<bool> {
    if pt == GBJ then
      match GbjChecklist.Decide(GbjChecklist.SEVERITY, form)
      case Ok(d) => Some(d.outcome == GbjChecklist.Pass)
      case Err(_) => None
    else Some(form.outcome == GbjChecklist.Pass)
  }

  function ReadVehicleCheck(form: GbjChecklist.Request, s: Dossier): Option<Reason> {
    if s.row.status != QcVehicleInProgress && s.row.status != QcVehiclePending then Some(WrongStatus)
    else if HasCurrent(s.tables.vehicleChecks) then Some(DuplicateRecord)
    else
      var verdict := VehicleVerdict(s.row.processType, form);
      if verdict.None? then Some(ChecklistRefused)
      else if !TransitionAllowed(s.row.status, Verdict(verdict.value)) then Some(InvalidTransition)
      else None
  }

  function VehicleRecord(
    pt: ProcessType, form: GbjChecklist.Request, checks: map<Field, bool>, notes: Json, checklist: Json,
    startedAt: Option<int>, now: int): map<Field, Json>
    requires VehicleVerdict(pt, form).Some?
  {
    var common :=
      (map f | f in checks && f in VEHICLE_CHECKS :: ResultWord(checks[f]))
      + map[CheckOutcome := ResultWord(VehicleVerdict(pt, form).value), Notes := notes,
            StartedAt := OptDate(startedAt), CompletedAt := Date(now)];
    if pt == GBJ then
      var d := GbjChecklist.Decide(GbjChecklist.SEVERITY, form).value;
      common + map[
        DecisionMode := ModeWord(d.mode),
        HasDeviation := Flag(d.hasDeviation),
        DeviationReason := if d.deviationReason.Some? then Text(d.deviationReason.value) else Null,
        ChecklistItems := Checklist(d.items)]
    else common + map[ChecklistItems := checklist]
  }

  function CommitVehicleCheck(
    form: GbjChecklist.Request, checks: map<Field, bool>, notes: Json, checklist: Json, now: int,
    snap: Row, db: Dossier): Outcome
    requires VehicleVerdict(snap.processType, form).Some?
  {
    var next := Verdict(VehicleVerdict(snap.processType, form).value);
    if !Claims(db.row, snap.status, snap.revision) then Err(Conflict)
    else
      var fields := VehicleRecord(snap.processType, form, checks, notes, checklist, OrNow(snap.qcStartAt, now), now);
      Ok(db.(
        row := db.row.(
          status := next,
          revision := db.row.revision + 1,
          qcStartAt := OrNow(snap.qcStartAt, now),
          qcEndAt := Some(now)),
        tables := db.tables.Set(VehicleChecks, Inserted(db.tables.vehicleChecks, fields)),
        history := db.history + [Edge(Some(snap.status), next)]))
  }

  function MaterialVerdict(passed: bool): Status {
    if passed then IncomingCheckPassed else IncomingCheckRejected
  }

  function ReadIncomingCheck(passed: bool, s: Dossier): Option<Reason> {
    if !Inbound(s.row.processType) then Some(WrongProcessType)
    else if s.row.status != IncomingCheckInProgress && s.row.status != IncomingCheckPending then Some(WrongStatus)
    else if HasCurrent(s.tables.materialChecks) then Some(DuplicateRecord)
    else if !TransitionAllowed(s.row.status, MaterialVerdict(passed)) then Some(InvalidTransition)
    else None
  }

  function CommitIncomingCheck(passed: bool, details: map<Field, Json>, now: int, snap: Row, db: Dossier): Outcome {
    var next := MaterialVerdict(passed);
    var fields := MaterialColumns(details)
      + map[CheckOutcome := ResultWord(passed), StartedAt := OptDate(OrNow(snap.incomingQcStartAt, now)),
        CompletedAt := Date(now)];
    if HasCurrent(db.tables.materialChecks) then Err(DuplicateRecord)
    else if !Claims(db.row, snap.status, snap.revision) then Err(Conflict)
    else Ok(db.(
      tables := db.tables.Set(MaterialChecks, Inserted(db.tables.materialChecks, fields)),
      row := db.row.(
        status := next,
        revision := db.row.revision + 1,
        incomingQcStartAt := OrNow(snap.incomingQcStartAt, now),
        qcEndAt := Some(now)),
      history := db.history + [Edge(Some(snap.status), next)]))
  }

  /** The warehouse's own incoming check: no duplicate guard of its own, in either half. */
  function ReadIncomingAtWarehouse(passed: bool, s: Dossier): Option<Reason> {
    if !Inbound(s.row.processType) then Some(WrongProcessType)
    else if s.row.status != IncomingCheckPending
      && (passed || s.row.status != WarehouseInProgress) then Some(WrongStatus)
    else if !TransitionAllowed(s.row.status, MaterialVerdict(passed)) then Some(InvalidTransition)
    else None
  }

  function CommitIncomingAtWarehouse(passed: bool, notes: Json, now: int, snap: Row, db: Dossier): Outcome {
    var next := MaterialVerdict(passed);
    var fields := map[CheckOutcome := ResultWord(passed), Notes := notes, CompletedAt := Date(now)];
    if !Claims(db.row, snap.status, snap.revision) then Err(Conflict)
    else Ok(db.(
      tables := db.tables.Set(MaterialChecks, Inserted(db.tables.materialChecks, fields)),
      row := db.row.(status := next, revision := db.row.revision + 1, qcEndAt := Some(now)),
      history := db.history + [Edge(Some(snap.status), next)]))
  }

  // ----- Warehouse -----

  function ReadStartWarehouse(s: Dossier): Option<Reason> {
    if Terminal(s.row.status) then Some(Final)
    else if s.row.status == WarehouseInProgress then Some(DuplicateRecord)
    else if s.row.status != QcVehiclePassed then Some(WrongStatus)
    else if !TransitionAllowed(s.row.status, WarehouseInProgress) then Some(InvalidTransition)
    else None
  }

  function CommitStartWarehouse(remarks: Json, now: int, snap: Row, db: Dossier): Outcome {
    if !Claims(db.row, QcVehiclePassed, snap.revision) then Err(Conflict)
    else Ok(db.(
      row := db.row.(
        status := WarehouseInProgress,
        revision := db.row.revision + 1,
        warehouseStartAt := OrNow(snap.warehouseStartAt, now)),
      tables := db.tables.Set(Warehousing,
        Inserted(db.tables.warehousing, map[StartAt := Date(now), Remarks := remarks])),
      history := db.history + [Edge(Some(snap.status), WarehouseInProgress)]))
  }

  function AfterWarehouse(pt: ProcessType): Status {
    if Inbound(pt) then IncomingCheckPending else WarehouseDone
  }

  function ReadCompleteWarehouse(actualWeight: Option<real>, actualQuantity: Option<real>, s: Dossier): Option<Reason> {
    if actualWeight.None? && actualQuantity.None? then Some(MalformedInput)
    else if actualWeight.Some? && actualWeight.value < MIN_WEIGHT then Some(MalformedInput)
    else if actualQuantity.Some? && actualQuantity.value < 1.0 then Some(MalformedInput)
    else if Terminal(s.row.status) then Some(Final)
    else if s.row.status != WarehouseInProgress then Some(WrongStatus)
    else if s.row.warehouseEndAt.Some? then Some(DuplicateRecord)
    else if !TransitionAllowed(s.row.status, AfterWarehouse(s.row.processType)) then Some(InvalidTransition)
    else None
  }

  /** Columns the caller leaves undefined are not written, but for the remarks, which become null. */
  function Measured(
    actualWeight: Option<real>, actualQuantity: Option<real>, details: map<Field, Json>, now: int): map<Field, Json>
  {
    map[Remarks := Null] + Restrict(details, WAREHOUSE_DETAILS)
    + (if actualWeight.Some? then map[ActualWeight := Num(actualWeight.value)] else map[])
    + (if actualQuantity.Some? then map[ActualQuantity := Num(actualQuantity.value)] else map[])
    + map[EndAt := Date(now)]
  }

  /** The active process is finished in place; a process is inserted when there is none. */
  function FinishedProcess(vs: seq<Version>, measured: map<Field, Json>, startedAt: Json): seq<Version> {
    var i := ActiveAt(vs);
    if i.Some? then vs[i.value := vs[i.value].(fields := vs[i.value].fields + measured)]
    else Inserted(vs, map[StartAt := startedAt] + measured)
  }

  function CommitCompleteWarehouse(
    actualWeight: Option<real>, actualQuantity: Option<real>, details: map<Field, Json>, now: int,
    snap: Row, db: Dossier): Outcome
  {
    var next := AfterWarehouse(snap.processType);
    if !Claims(db.row, WarehouseInProgress, snap.revision) || db.row.warehouseEndAt.Some? then Err(Conflict)
    else Ok(db.(
      row := db.row.(
        status := next,
        revision := db.row.revision + 1,
        warehouseStartAt := OrNow(snap.warehouseStartAt, now),
        warehouseEndAt := Some(now),
        actualWeight := if actualWeight.Some? then actualWeight else db.row.actualWeight,
        actualQuantity := if actualQuantity.Some? then actualQuantity else db.row.actualQuantity,
        info := if Unit in details then db.row.info[WarehouseUnit := details[Unit]] else db.row.info),
      tables := db.tables.Set(Warehousing, FinishedProcess(
        db.tables.warehousing,
        Measured(actualWeight, actualQuantity, details, now),
        OptDate(OrNow(snap.warehouseStartAt, now)))),
      history := db.history + [Edge(Some(snap.status), next)]))
  }

  function ReadCompleteAnalysis(s: Dossier): Option<Reason> {
    if s.row.status != WarehouseInProgress || s.row.processType != GBB then Some(WrongStatus) else None
  }

  function Annotated(vs: seq<Version>, remarks: string): seq<Version> {
    var i := ActiveAt(vs);
    if i.Some? then vs[i.value := vs[i.value].(fields := vs[i.value].fields[Remarks := Text(remarks)])] else vs
  }

  function CommitCompleteAnalysis(note: Option<string>, now: int, snap: Row, db: Dossier): Outcome {
    if !Claims(db.row, WarehouseInProgress, snap.revision) then Err(Conflict)
    else Ok(db.(
      row := db.row.(
        revision := db.row.revision + 1,
        analysisCompletedAt := Some(now),
        info := if note.Some? then db.row.info[Remarks := Text(note.value)] else db.row.info),
      tables :=
        if note.Some? then db.tables.Set(Warehousing, Annotated(db.tables.warehousing, note.value)) else db.tables))
  }

  // ----- Gate, cancellation and void -----

  function ReadCheckOut(s: Dossier): Option<Reason> {
    if !TransitionAllowed(s.row.status, Completed) then Some(InvalidTransition) else None
  }

  function CommitCheckOut(now: int, snap: Row, db: Dossier): Outcome {
    if !Claims(db.row, WeighOutDone, snap.revision) then Err(Conflict)
    else Ok(db.(
      row := db.row.(
        status := Completed,
        revision := db.row.revision + 1,
        gateOutAt := Some(now),
        completedAt := Some(now)),
      history := db.history + [Edge(Some(snap.status), Completed)]))
  }

  function Cancelling(why: string, now: int, from: Status, db: Dossier): Dossier {
    db.(
      row := db.row.(
        status := Cancelled,
        revision := db.row.revision + 1,
        cancelledAt := Some(now),
        info := db.row.info[CancellationReason := Text(why)]),
      history := db.history + [Edge(Some(from), Cancelled)])
  }

  function ReadCancelAtGate(s: Dossier): Option<Reason> {
    if !TransitionAllowed(s.row.status, Cancelled) then Some(InvalidTransition) else None
  }

  function CommitCancelAtGate(why: string, now: int, snap: Row, db: Dossier): Outcome {
    if !Claims(db.row, snap.status, snap.revision) then Err(Conflict) else Ok(Cancelling(why, now, snap.status, db))
  }

  function ReadCancel(s: Dossier): Option<Reason> {
    if Terminal(s.row.status) then Some(Final) else None
  }

  function CommitCancel(why: string, now: int, snap: Row, db: Dossier): Outcome {
    if db.row.revision != snap.revision || Terminal(db.row.status) then Err(Conflict)
    else Ok(Cancelling(why, now, snap.status, db))
  }

  function ReadVoid(s: Dossier): Option<Reason> {
    if s.row.status == Completed then Some(Final)
    else if s.row.isVoided then Some(AlreadyVoided)
    else None
  }

  /** Swaps on the client's expected revision, not on the one the call read. */
  function CommitVoid(expectedRevision: int, why: string, now: int, snap: Row, db: Dossier): Outcome {
    if db.row.revision != expectedRevision || db.row.status == Completed || db.row.isVoided then Err(Conflict)
    else Ok(db.(
      row := db.row.(
        status := Cancelled,
        revision := db.row.revision + 1,
        isVoided := true,
        voidedAt := Some(now),
        cancelledAt := OrNow(snap.cancelledAt, now),
        info := db.row.info[CancellationReason :=
          if FieldOf(snap.info, CancellationReason) !in {Null, Text("")} then FieldOf(snap.info, CancellationReason)
          else Text(why)]),
      history := db.history + if snap.status != Cancelled then [Edge(Some(snap.status), Cancelled)] else []))
  }

  // ----- All of them -----

  function ReadForward(f: Forward, s: Dossier): Option<Reason> {
    match f
    case WeighIn(weight, _, _, _) => ReadWeighIn(weight, s)
    case WeighOut(weight, _, _, _) => ReadWeighOut(weight, s)
    case StartQc(_) => ReadStartQc(s)
    case SubmitVehicleCheck(form, _, _, _, _) => ReadVehicleCheck(form, s)
    case SubmitIncomingCheck(passed, _, _) => ReadIncomingCheck(passed, s)
    case SubmitIncomingAtWarehouse(passed, _, _) => ReadIncomingAtWarehouse(passed, s)
    case StartWarehouse(_, _) => ReadStartWarehouse(s)
    case CompleteWarehouse(weight, quantity, _, _) => ReadCompleteWarehouse(weight, quantity, s)
    case CompleteAnalysis(_, _) => ReadCompleteAnalysis(s)
    case CheckOut(_) => ReadCheckOut(s)
    case CancelAtGate(_, _) => ReadCancelAtGate(s)
    case Cancel(_, _) => ReadCancel(s)
    case Void(_, _, _) => ReadVoid(s)
  }

  function CommitForward(f: Forward, snap: Dossier, db: Dossier): Outcome
    requires ReadForward(f, snap).None?
  {
    match f
    case WeighIn(weight, ticket, remarks, now) => CommitWeighIn(weight, ticket, remarks, now, snap.row, db)
    case WeighOut(weight, ticket, remarks, now) => CommitWeighOut(weight, ticket, remarks, now, snap, db)
    case StartQc(now) => CommitStartQc(now, snap.row, db)
    case SubmitVehicleCheck(form, checks, notes, checklist, now) =>
      CommitVehicleCheck(form, checks, notes, checklist, now, snap.row, db)
    case SubmitIncomingCheck(passed, details, now) => CommitIncomingCheck(passed, details, now, snap.row, db)
    case SubmitIncomingAtWarehouse(passed, notes, now) => CommitIncomingAtWarehouse(passed, notes, now, snap.row, db)
    case StartWarehouse(remarks, now) => CommitStartWarehouse(remarks, now, snap.row, db)
    case CompleteWarehouse(weight, quantity, details, now) =>
      CommitCompleteWarehouse(weight, quantity, details, now, snap.row, db)
    case CompleteAnalysis(note, now) => CommitCompleteAnalysis(note, now, snap.row, db)
    case CheckOut(now) => CommitCheckOut(now, snap.row, db)
    case CancelAtGate(why, now) => CommitCancelAtGate(why, now, snap.row, db)
    case Cancel(why, now) => CommitCancel(why, now, snap.row, db)
    case Void(expectedRevision, why, now) => CommitVoid(expectedRevision, why, now, snap.row, db)
  }

  /** A call whose two halves run with nothing in between. */
  function ApplyForward(f: Forward, s: Dossier): Outcome {
    var refusal := ReadForward(f, s);
    if refusal.Some? then Err(refusal.value) else CommitForward(f, s, s)
  }
}
