/** The administrator's correction of a terminal transaction: edited records are superseded, or the workflow reopens. */
module Corrections {
  import opened Prelude
  import opened Workflow
  import opened Records
  import opened Steps

  datatype Item = Item(targetModule: TargetModule, target: Option<Ref>, field: Field, newValue: Json)

  /**
   * lastWeighbridge is the database's choice: which of the current weighbridge records an unordered
   * query lists last, used when an item names no record.
   */
  datatype CorrectionRequest = CorrectionRequest(
    action: Action,
    reopenTarget: Option<Status>,
    expectedRevision: int,
    items: seq<Item>,
    lastWeighbridge: TableId)

  const VEHICLE_FIELDS: set<Field> := VEHICLE_CHECKS + {CheckOutcome, Notes, ChecklistItems}
  const MATERIAL_FIELDS: set<Field> := MATERIAL_DETAILS + {CheckOutcome, ChecklistItems}

  function Allowlist(m: TargetModule): set<Field> {
    match m
    case TransactionModule => {
      DriverName, DriverPhone, VendorName, VehicleType, CargoType, CargoSubType, SuratJalanNumber, PoNumber, Remarks,
      GrossWeight, TareWeight, ActualWeight, ActualQuantity, PermitCardNumber, GuestIdNumber}
    case StatusModule => {StatusColumn}
    case RemarkModule => {Remarks, CancellationReason, Notes, Description}
    case WeighbridgeModule => {Weight, TicketNumber, Remarks}
    case VehicleModule => VEHICLE_FIELDS
    case QcMaterialModule => MATERIAL_FIELDS
    case IncomingMaterialModule => MATERIAL_FIELDS
    case WarehouseModule => {
      StartAt, EndAt, ActualWeight, ActualQuantity, Unit, PalletCount, BagCount, RollCount, Condition, Remarks,
      ChecklistItems}
  }

  predicate IsInteger(n: real) {
    n == n.Floor as real
  }

  predicate DomainValid(rt: Runtime, f: Field, v: Json) {
    match f
    case GrossWeight | TareWeight | ActualWeight | SampleWeight | Weight =>
      ToNumber(rt, v).Some? && ToNumber(rt, v).value > 0.0
    case Moisture | ForeignMatter | GoodBeanPercentage =>
      ToNumber(rt, v).Some? && 0.0 <= ToNumber(rt, v).value <= 100.0
    case StartAt | EndAt => rt.date(v).Some?
    case ActualQuantity | PalletCount | BagCount | RollCount =>
      ToNumber(rt, v).Some? && ToNumber(rt, v).value >= 0.0 && IsInteger(ToNumber(rt, v).value)
    case StatusColumn => false
    case _ => true
  }

  /** Verdict words are mapped to the stored ones. */
  function Normalized(it: Item): Item {
    if it.field == CheckOutcome && it.newValue.Text? then
      var word := ToUpper(it.newValue.s);
      if word in ["APPROVED", "PASS", "APPROVED_WITH_NOTE"] then it.(newValue := Text("PASS"))
      else if word in ["REJECTED", "REJECT"] then it.(newValue := Text("REJECT"))
      else it
    else it
  }

  // ----- Sorting the items by the record they name -----

  datatype Group = Group(targetModule: TargetModule, ref: Ref, rec: Version, items: seq<Item>)

  datatype Sorted = Sorted(roots: seq<Item>, groups: seq<Group>)

  predicate IsRoot(m: TargetModule) {
    m == TransactionModule || m == StatusModule || m == RemarkModule
  }

  predicate IsCurrentRef(tables: Tables, r: Ref) {
    r.index < |tables.Get(r.table)| && tables.Get(r.table)[r.index].isCurrent
  }

  predicate ModuleCovers(m: TargetModule, t: TableId) {
    match m
    case WeighbridgeModule => t == InWeights || t == OutWeights
    case VehicleModule => t == VehicleChecks
    case QcMaterialModule => t == MaterialChecks
    case IncomingMaterialModule => t == MaterialChecks
    case WarehouseModule => t == Warehousing
    case _ => false
  }

  function CurrentRef(tables: Tables, t: TableId): (r: Option<Ref>)
    ensures r.Some? ==> r.value.table == t && IsCurrentRef(tables, r.value)
  {
    var i := CurrentAt(tables.Get(t));
    if i.Some? then Some(Ref(t, i.value)) else None
  }

  function DefaultRef(tables: Tables, m: TargetModule, last: TableId): (r: Option<Ref>)
    ensures r.Some? ==> ModuleCovers(m, r.value.table) && IsCurrentRef(tables, r.value)
  {
    match m
    case WeighbridgeModule =>
      var inbound := CurrentRef(tables, InWeights);
      var outbound := CurrentRef(tables, OutWeights);
      if inbound.None? then outbound
      else if outbound.None? then inbound
      else if last == OutWeights then outbound else inbound
    case VehicleModule => CurrentRef(tables, VehicleChecks)
    case QcMaterialModule => CurrentRef(tables, MaterialChecks)
    case IncomingMaterialModule => CurrentRef(tables, MaterialChecks)
    case WarehouseModule => CurrentRef(tables, Warehousing)
    case _ => None
  }

  /** Only a current record of this transaction, in a table the module covers, can be named, and no other is meant. */
  function TargetRef(tables: Tables, it: Item, last: TableId): (r: Option<Ref>)
    ensures r.Some? ==> ModuleCovers(it.targetModule, r.value.table) && IsCurrentRef(tables, r.value)
    ensures r.Some? && it.target.Some? ==> r == it.target
  {
    match it.target
    case None => DefaultRef(tables, it.targetModule, last)
    case Some(r) => if ModuleCovers(it.targetModule, r.table) && IsCurrentRef(tables, r) then Some(r) else None
  }

  function FindGroup(groups: seq<Group>, m: TargetModule, r: Ref): (k: Option<nat>)
    ensures k.Some? ==> k.value < |groups| && groups[k.value].targetModule == m && groups[k.value].ref == r
    ensures k.None? ==> forall i :: 0 <= i < |groups| ==> groups[i].targetModule != m || groups[i].ref != r
  {
    if groups == [] then None
    else
      var last := groups[|groups| - 1];
      if last.targetModule == m && last.ref == r then Some(|groups| - 1)
      else FindGroup(groups[..|groups| - 1], m, r)
  }

  function Grouped(groups: seq<Group>, m: TargetModule, r: Ref, rec: Version, it: Item): seq<Group> {
    var k := FindGroup(groups, m, r);
    if k.Some? then groups[k.value := groups[k.value].(items := groups[k.value].items + [it])]
    else groups + [Group(m, r, rec, [it])]
  }

  function SortItem(rt: Runtime, tables: Tables, last: TableId, acc: Sorted, raw: Item): Result<Sorted, Reason> {
    if raw.field !in Allowlist(raw.targetModule) then Err(FieldDenied)
    else if !DomainValid(rt, raw.field, raw.newValue) then Err(MalformedInput)
    else
      var it := Normalized(raw);
      if IsRoot(it.targetModule) then Ok(acc.(roots := acc.roots + [it]))
      else
        var r := TargetRef(tables, it, last);
        if r.None? then Err(RecordMissing)
        else Ok(acc.(groups :=
          Grouped(acc.groups, it.targetModule, r.value, tables.Get(r.value.table)[r.value.index], it)))
  }

  function SortItems(rt: Runtime, tables: Tables, last: TableId, items: seq<Item>): Result<Sorted, Reason> {
    if items == [] then Ok(Sorted([], []))
    else
      var acc := SortItems(rt, tables, last, items[..|items| - 1]);
      if acc.Err? then acc else SortItem(rt, tables, last, acc.value, items[|items| - 1])
  }

  // ----- What the items change on the row -----

  function ItemChanges(
    rt: Runtime, pt: ProcessType, t: TableId, changes: map<Field, Json>, it: Item): map<Field, Json>
  {
    match t
    case InWeights =>
      if it.field == Weight then changes[(if pt == GBJ then TareWeight else GrossWeight) := AsNumber(rt, it.newValue)]
      else changes
    case OutWeights =>
      if it.field == Weight then changes[(if pt == GBJ then GrossWeight else TareWeight) := AsNumber(rt, it.newValue)]
      else changes
    case Warehousing =>
      (match it.field
       case ActualWeight => changes[ActualWeight := AsNumber(rt, it.newValue)]
       case ActualQuantity => changes[ActualQuantity := AsNumber(rt, it.newValue)]
       case Unit => changes[WarehouseUnit := it.newValue]
       case StartAt => changes[WarehouseStartAt := AsDate(rt, it.newValue)]
       case EndAt => changes[WarehouseEndAt := AsDate(rt, it.newValue)]
       case _ => changes)
    case _ => changes
  }

  function AsNumber(rt: Runtime, v: Json): Json {
    OptNum(ToNumber(rt, v))
  }

  function AsDate(rt: Runtime, v: Json): Json {
    OptDate(rt.date(v))
  }

  function RootChanges(roots: seq<Item>): map<Field, Json> {
    if roots == [] then map[]
    else RootChanges(roots[..|roots| - 1])[roots[|roots| - 1].field := roots[|roots| - 1].newValue]
  }

  function RecordChanges(
    rt: Runtime, pt: ProcessType, t: TableId, changes: map<Field, Json>, items: seq<Item>): map<Field, Json>
  {
    if items == [] then changes
    else ItemChanges(rt, pt, t, RecordChanges(rt, pt, t, changes, items[..|items| - 1]), items[|items| - 1])
  }

  function GroupChanges(rt: Runtime, pt: ProcessType, changes: map<Field, Json>, groups: seq<Group>): map<Field, Json> {
    if groups == [] then changes
    else
      var last := groups[|groups| - 1];
      RecordChanges(rt, pt, last.ref.table, GroupChanges(rt, pt, changes, groups[..|groups| - 1]), last.items)
  }

  function RowChanges(rt: Runtime, pt: ProcessType, s: Sorted): map<Field, Json> {
    GroupChanges(rt, pt, RootChanges(s.roots), s.groups)
  }

  predicate RootChanged(rt: Runtime, row: Row, it: Item) {
    rt.stringify(Column(row, it.field)) != rt.stringify(it.newValue)
  }

  predicate GroupChanged(rt: Runtime, g: Group) {
    exists i :: 0 <= i < |g.items|
      && rt.stringify(FieldOf(g.rec.fields, g.items[i].field)) != rt.stringify(g.items[i].newValue)
  }

  predicate HasChanges(rt: Runtime, row: Row, s: Sorted) {
    || (exists i :: 0 <= i < |s.roots| && RootChanged(rt, row, s.roots[i]))
    || (exists i :: 0 <= i < |s.groups| && GroupChanged(rt, s.groups[i]))
  }

  /** The database client refuses an unknown column or a value of another type, which aborts the commit. */
  predicate ColumnTakes(rt: Runtime, f: Field, v: Json) {
    match f
    case GrossWeight | TareWeight | ActualWeight | ActualQuantity => v.Num?
    case WarehouseStartAt | WarehouseEndAt => v.Date?
    case _ => f in INFO_COLUMNS && rt.accepts(f, v)
  }

  predicate ChangesTaken(rt: Runtime, changes: map<Field, Json>) {
    forall f | f in changes :: ColumnTakes(rt, f, changes[f])
  }

  function NumberIn(changes: map<Field, Json>, f: Field, now: Option<real>): Option<real> {
    if f in changes && changes[f].Num? then Some(changes[f].n) else now
  }

  function DateIn(changes: map<Field, Json>, f: Field, now: Option<int>): Option<int> {
    if f in changes && changes[f].Date? then Some(changes[f].at) else now
  }

  function ChangedRow(row: Row, changes: map<Field, Json>): Row {
    row.(
      grossWeight := NumberIn(changes, GrossWeight, row.grossWeight),
      tareWeight := NumberIn(changes, TareWeight, row.tareWeight),
      actualWeight := NumberIn(changes, ActualWeight, row.actualWeight),
      actualQuantity := NumberIn(changes, ActualQuantity, row.actualQuantity),
      warehouseStartAt := DateIn(changes, WarehouseStartAt, row.warehouseStartAt),
      warehouseEndAt := DateIn(changes, WarehouseEndAt, row.warehouseEndAt),
      info := row.info + Restrict(changes, INFO_COLUMNS))
  }

  predicate GrossUnderTare(row: Row) {
    row.grossWeight.Some? && row.tareWeight.Some? && row.grossWeight.value < row.tareWeight.value
  }

  predicate StartsAfterEnd(row: Row) {
    row.warehouseStartAt.Some? && row.warehouseEndAt.Some? && row.warehouseStartAt.value > row.warehouseEndAt.value
  }

  /** Recomputed whenever both weights are known. */
  function WithNet(row: Row): Row {
    if row.grossWeight.Some? && row.tareWeight.Some?
    then row.(netWeight := Some(row.grossWeight.value - row.tareWeight.value))
    else row
  }

  function FraudAfter(row: Row): seq<FraudCheck> {
    if row.netWeight.Some? && row.actualWeight.Some? && row.netWeight.value > 0.0
    then [Assess(row.netWeight.value, row.actualWeight.value)]
    else []
  }

  // ----- Superseding one record -----

  /** Columns copied from the superseded record; the decision columns of a vehicle check are not among them. */
  function CopiedColumns(t: TableId): set<Field> {
    match t
    case InWeights => {Weight, TicketNumber, Remarks}
    case OutWeights => {Weight, TicketNumber, Remarks}
    case VehicleChecks => VEHICLE_FIELDS + {StartedAt, CompletedAt}
    case MaterialChecks => MATERIAL_FIELDS + {StartedAt, CompletedAt}
    case Warehousing => {
      StartAt, EndAt, ActualWeight, ActualQuantity, Unit, PalletCount, BagCount, RollCount, Condition, Remarks,
      ChecklistItems}
  }

  function Coerced(rt: Runtime, t: TableId, f: Field, v: Json): Json {
    match t
    case InWeights => if f == Weight then AsNumber(rt, v) else Text(rt.text(v))
    case OutWeights => if f == Weight then AsNumber(rt, v) else Text(rt.text(v))
    case VehicleChecks => if f == Notes then Text(rt.text(v)) else v
    case MaterialChecks =>
      if f in {Moisture, ForeignMatter, SampleWeight, GoodBeanPercentage} then AsNumber(rt, v)
      else if f in {DefectNotes, Notes} then Text(rt.text(v))
      else v
    case Warehousing =>
      if f in {StartAt, EndAt} then AsDate(rt, v)
      else if f in {ActualWeight, ActualQuantity, PalletCount, BagCount, RollCount} then AsNumber(rt, v)
      else if f == Remarks then Text(rt.text(v))
      else v
  }

  /** The editing loop over one record's items. */
  function Edited(rt: Runtime, t: TableId, fields: map<Field, Json>, items: seq<Item>): map<Field, Json> {
    if items == [] then fields
    else
      var last := items[|items| - 1];
      Edited(rt, t, fields, items[..|items| - 1])[last.field := Coerced(rt, t, last.field, last.newValue)]
  }

  predicate RecordTaken(rt: Runtime, t: TableId, items: seq<Item>) {
    forall i :: 0 <= i < |items| ==> rt.accepts(items[i].field, Coerced(rt, t, items[i].field, items[i].newValue))
  }

  function StoredRoots(row: Row, c: nat, roots: seq<Item>): seq<StoredItem> {
    seq(|roots|, i requires 0 <= i < |roots| =>
      StoredItem(c, roots[i].targetModule, None, None, roots[i].field, Column(row, roots[i].field), roots[i].newValue))
  }

  function StoredGroup(c: nat, g: Group, replacement: Ref): seq<StoredItem> {
    seq(|g.items|, i requires 0 <= i < |g.items| =>
      StoredItem(c, g.items[i].targetModule, Some(g.ref), Some(replacement), g.items[i].field,
                 FieldOf(g.rec.fields, g.items[i].field), g.items[i].newValue))
  }

  function SupersedeGroup(rt: Runtime, c: nat, g: Group, db: Dossier): Outcome {
    var t := g.ref.table;
    var vs := db.tables.Get(t);
    if !(g.ref.index < |vs| && vs[g.ref.index].isCurrent && vs[g.ref.index].revision == g.rec.revision)
    then Err(SupersededMeanwhile)
    else if !RecordTaken(rt, t, g.items) then Err(ColumnRejected)
    else
      var fields := Edited(rt, t, Restrict(g.rec.fields, CopiedColumns(t)), g.items);
      Ok(db.(
        tables := db.tables.Set(t,
          vs[g.ref.index := Superseded(vs[g.ref.index], c)] + [Version(g.rec.revision + 1, true, None, fields)]),
        items := db.items + StoredGroup(c, g, Ref(t, |vs|))))
  }

  function SupersedeGroups(rt: Runtime, c: nat, groups: seq<Group>, db: Dossier): Outcome {
    if groups == [] then Ok(db)
    else
      var before := SupersedeGroups(rt, c, groups[..|groups| - 1], db);
      if before.Err? then before else SupersedeGroup(rt, c, groups[|groups| - 1], before.value)
  }

  // ----- The two actions -----

  /** The correction header and the items on the row itself, recorded before any record is touched. */
  function Headed(req: CorrectionRequest, sorted: Sorted, db: Dossier): Dossier {
    db.(
      corrections := db.corrections + [Correction(false, req.expectedRevision)],
      items := db.items + StoredRoots(db.row, |db.corrections|, sorted.roots))
  }

  function CorrectRecords(rt: Runtime, req: CorrectionRequest, db: Dossier): Outcome {
    var sorted := SortItems(rt, db.tables, req.lastWeighbridge, req.items);
    if sorted.Err? then Err(sorted.error)
    else
      var changes := RowChanges(rt, db.row.processType, sorted.value);
      var row := ChangedRow(db.row, changes);
      if req.action == CorrectData && !HasChanges(rt, db.row, sorted.value) then Err(NoChange)
      else if !ChangesTaken(rt, changes) then Err(ColumnRejected)
      else if GrossUnderTare(row) then Err(GrossBelowTare)
      else if StartsAfterEnd(row) then Err(StartAfterEnd)
      else
        var edited := SupersedeGroups(rt, |db.corrections|, sorted.value.groups, Headed(req, sorted.value, db));
        if edited.Err? then edited
        else
          var final := WithNet(row).(revision := db.row.revision + 1);
          Ok(edited.value.(row := final, fraudChecks := db.fraudChecks + FraudAfter(final)))
  }

  function EffectiveTarget(target: Status): Status {
    if target == WarehouseInProgress then QcVehiclePassed else target
  }

  /** Which tables lose their current record when reopening to a stage. */
  function Cleared(to: Status): set<TableId> {
    match to
    case Registered => {InWeights, OutWeights, VehicleChecks, MaterialChecks, Warehousing}
    case QcVehiclePending => {OutWeights, VehicleChecks, MaterialChecks, Warehousing}
    case QcVehiclePassed => {OutWeights, MaterialChecks, Warehousing}
    case IncomingCheckPending => {OutWeights, MaterialChecks}
    case _ => {OutWeights}
  }

  function ClearedTables(tables: Tables, cleared: set<TableId>, c: nat): (r: Tables)
    ensures forall t :: r.Get(t) == if t in cleared then SupersedeCurrent(tables.Get(t), c) else tables.Get(t)
  {
    var f := (t: TableId) => if t in cleared then SupersedeCurrent(tables.Get(t), c) else tables.Get(t);
    Tables(f(InWeights), f(OutWeights), f(VehicleChecks), f(MaterialChecks), f(Warehousing))
  }

  function ReopenedRow(row: Row, to: Status): Row {
    var base := row.(
      status := to,
      revision := row.revision + 1,
      cancelledAt := None,
      completedAt := None,
      gateOutAt := None,
      weighOutAt := None,
      analysisCompletedAt := None,
      incomingQcStartAt := None,
      info := row.info[CancellationReason := Null]);
    match to
    case Registered =>
      NoWarehouse(base).(
        weighInAt := None, grossWeight := None, tareWeight := None, netWeight := None, qcStartAt := None,
        qcEndAt := None)
    case QcVehiclePending => NoWarehouse(base).(qcStartAt := None, qcEndAt := None)
    case QcVehiclePassed => NoWarehouse(base)
    case _ => base
  }

  function NoWarehouse(row: Row): Row {
    row.(
      warehouseStartAt := None,
      warehouseEndAt := None,
      actualWeight := None,
      actualQuantity := None,
      info := row.info[WarehouseUnit := Null])
  }

  function Reopen(req: CorrectionRequest, target: Status, db: Dossier): Outcome {
    var to := EffectiveTarget(target);
    if GrossUnderTare(db.row) then Err(GrossBelowTare)
    else if StartsAfterEnd(db.row) then Err(StartAfterEnd)
    else if to !in ReopenTargets(db.row.processType) then Err(TargetNotAllowed)
    else
      var row := ReopenedRow(WithNet(db.row), to);
      Ok(db.(
        row := row,
        tables := ClearedTables(db.tables, Cleared(to), |db.corrections|),
        corrections := db.corrections + [Correction(true, req.expectedRevision)],
        history := db.history + [Edge(Some(db.row.status), to)],
        fraudChecks := db.fraudChecks + FraudAfter(row)))
  }

  function ReadCorrection(req: CorrectionRequest): Option<Reason> {
    if req.action == CorrectRecordedStatus then Some(ActionDisabled)
    else if (req.action == ReopenWorkflow) != req.reopenTarget.Some? then Some(MalformedInput)
    else if (req.action == ReopenWorkflow) != (req.items == []) then Some(MalformedInput)
    else if exists i :: 0 <= i < |req.items| && req.items[i].newValue == Null then Some(MalformedInput)
    else None
  }

  function CommitCorrection(rt: Runtime, req: CorrectionRequest, db: Dossier): Outcome
    requires ReadCorrection(req).None?
  {
    if !Terminal(db.row.status) then Err(NotTerminal)
    else if req.action == ReopenWorkflow && db.row.isVoided then Err(VoidedStays)
    else if db.row.revision != req.expectedRevision then Err(Conflict)
    else if req.action == ReopenWorkflow then Reopen(req, req.reopenTarget.value, db)
    else CorrectRecords(rt, req, db)
  }
}
