/**
 * The rows one transaction owns: the Transaction row, its versioned child tables and its append-only
 * tables. Every query of the services filters on the transaction, so one partition is modelled.
 */
module Records {
  import opened Prelude
  import opened Workflow
  import GbjChecklist

  /** Columns that a correction may name, or that the services write. */
  datatype Field =
    | DriverName | DriverPhone | VendorName | VehicleType | CargoType | CargoSubType | SuratJalanNumber
    | PoNumber | PermitCardNumber | GuestIdNumber | Remarks | CancellationReason | Description
    | GrossWeight | TareWeight | ActualWeight | ActualQuantity | WarehouseUnit | WarehouseStartAt | WarehouseEndAt
    | Weight | TicketNumber
    | CheckOutcome | VehicleCleanliness | VehicleOdor | PestEvidence | VehicleCondition | DocumentCompleteness
    | SealCondition | Notes | ChecklistItems | StartedAt | CompletedAt
    | DecisionMode | HasDeviation | DeviationReason
    | Odor | Color | Moisture | ForeignMatter | BeanCondition | SampleWeight | GoodBeanPercentage
    | ItemCondition | PackagingCondition | QuantityCheck | DocumentCheck | VisualInspection | DefectNotes
    | StartAt | EndAt | Unit | PalletCount | BagCount | RollCount | Condition
    | StatusColumn
    | OtherField(name: string)

  /** A JSON or column value. */
  datatype Json =
    | Null
    | Num(n: real)
    | Text(s: string)
    | Flag(b: bool)
    | Date(at: int)
    | Tree(id: nat)
    | Checklist(items: seq<GbjChecklist.CheckedItem>)

  /**
   * What the language runtime and the database client do with a value: Number(), String(), new Date(),
   * JSON.stringify(), and whether the client takes the value for a column. Nothing here depends on how.
   */
  datatype Runtime = Runtime(
    number: Json -> Option<real>,
    text: Json -> string,
    date: Json -> Option<int>,
    stringify: Json -> string,
    accepts: (Field, Json) -> bool)

  function ToNumber(rt: Runtime, v: Json): Option<real> {
    match v
    case Num(n) => Some(n)
    case _ => rt.number(v)
  }

  // ----- Versioned tables -----

  /** One revision of a child record; its identity is its table and its place there. */
  datatype Version = Version(revision: int, isCurrent: bool, supersededBy: Option<nat>, fields: map<Field, Json>)

  datatype TableId = InWeights | OutWeights | VehicleChecks | MaterialChecks | Warehousing

  datatype Ref = Ref(table: TableId, index: nat)

  datatype Tables = Tables(
    inWeights: seq<Version>,
    outWeights: seq<Version>,
    vehicleChecks: seq<Version>,
    materialChecks: seq<Version>,
    warehousing: seq<Version>)
  {
    function Get(t: TableId): seq<Version> {
      match t
      case InWeights => inWeights
      case OutWeights => outWeights
      case VehicleChecks => vehicleChecks
      case MaterialChecks => materialChecks
      case Warehousing => warehousing
    }

    function Set(t: TableId, vs: seq<Version>): (r: Tables)
      ensures r.Get(t) == vs
      ensures forall u :: u != t ==> r.Get(u) == Get(u)
    {
      match t
      case InWeights => this.(inWeights := vs)
      case OutWeights => this.(outWeights := vs)
      case VehicleChecks => this.(vehicleChecks := vs)
      case MaterialChecks => this.(materialChecks := vs)
      case Warehousing => this.(warehousing := vs)
    }
  }

  function FieldOf(fields: map<Field, Json>, f: Field): Json {
    if f in fields then fields[f] else Null
  }

  /** The place of the last current record: a findFirst on isCurrent where at most one can match. */
  function CurrentAt(vs: seq<Version>): (i: Option<nat>)
    ensures i.Some? ==> i.value < |vs| && vs[i.value].isCurrent
    ensures i.Some? <==> exists k :: 0 <= k < |vs| && vs[k].isCurrent
  {
    if vs == [] then None
    else if vs[|vs| - 1].isCurrent then Some(|vs| - 1)
    else
      var i := CurrentAt(vs[..|vs| - 1]);
      assert forall k :: 0 <= k < |vs| - 1 ==> vs[..|vs| - 1][k] == vs[k];
      i
  }

  predicate HasCurrent(vs: seq<Version>) {
    CurrentAt(vs).Some?
  }

  /** The place of a current record that has no end time yet. */
  function ActiveAt(vs: seq<Version>): (i: Option<nat>)
    ensures i.Some? ==> i.value < |vs| && vs[i.value].isCurrent && FieldOf(vs[i.value].fields, EndAt) == Null
  {
    if vs == [] then None
    else if vs[|vs| - 1].isCurrent && FieldOf(vs[|vs| - 1].fields, EndAt) == Null then Some(|vs| - 1)
    else ActiveAt(vs[..|vs| - 1])
  }

  /** The aggregate _max of the revision column, zero for an empty table. */
  function MaxRevision(vs: seq<Version>): int {
    if vs == [] then 0
    else
      var m := MaxRevision(vs[..|vs| - 1]);
      if |vs| == 1 || vs[|vs| - 1].revision > m then vs[|vs| - 1].revision else m
  }

  /** What the forward steps insert: the next revision, current by the column default. */
  function Inserted(vs: seq<Version>, fields: map<Field, Json>): seq<Version> {
    vs + [Version(MaxRevision(vs) + 1, true, None, fields)]
  }

  function Superseded(v: Version, correction: nat): Version {
    v.(isCurrent := false, supersededBy := Some(correction))
  }

  /** An updateMany over the current records of a table. */
  function SupersedeCurrent(vs: seq<Version>, correction: nat): (r: seq<Version>)
    ensures |r| == |vs|
    ensures forall i :: 0 <= i < |vs| ==> r[i] == if vs[i].isCurrent then Superseded(vs[i], correction) else vs[i]
  {
    seq(|vs|, i requires 0 <= i < |vs| => if vs[i].isCurrent then Superseded(vs[i], correction) else vs[i])
  }

  // ----- The Transaction row -----

  datatype Row = Row(
    processType: ProcessType,
    status: Status,
    revision: int,
    isVoided: bool,
    grossWeight: Option<real>,
    tareWeight: Option<real>,
    netWeight: Option<real>,
    actualWeight: Option<real>,
    actualQuantity: Option<real>,
    weighInAt: Option<int>,
    weighOutAt: Option<int>,
    qcStartAt: Option<int>,
    qcEndAt: Option<int>,
    incomingQcStartAt: Option<int>,
    analysisCompletedAt: Option<int>,
    warehouseStartAt: Option<int>,
    warehouseEndAt: Option<int>,
    gateOutAt: Option<int>,
    completedAt: Option<int>,
    cancelledAt: Option<int>,
    voidedAt: Option<int>,
    info: map<Field, Json>)

  /** Descriptive columns of the row, which only corrections and cancellation write here. */
  const INFO_COLUMNS: set<Field> := {
    DriverName, DriverPhone, VendorName, VehicleType, CargoType, CargoSubType, SuratJalanNumber, PoNumber,
    PermitCardNumber, GuestIdNumber, Remarks, CancellationReason, WarehouseUnit
  }

  function OptNum(o: Option<real>): Json {
    if o.Some? then Num(o.value) else Null
  }

  function OptDate(o: Option<int>): Json {
    if o.Some? then Date(o.value) else Null
  }

  function Column(row: Row, f: Field): Json {
    match f
    case GrossWeight => OptNum(row.grossWeight)
    case TareWeight => OptNum(row.tareWeight)
    case ActualWeight => OptNum(row.actualWeight)
    case ActualQuantity => OptNum(row.actualQuantity)
    case WarehouseStartAt => OptDate(row.warehouseStartAt)
    case WarehouseEndAt => OptDate(row.warehouseEndAt)
    case _ => FieldOf(row.info, f)
  }

  /** The column the in-weight is cached in: a loading truck comes in empty. */
  function InWeight(row: Row): Option<real> {
    if Inbound(row.processType) then row.grossWeight else row.tareWeight
  }

  function OutWeight(row: Row): Option<real> {
    if Inbound(row.processType) then row.tareWeight else row.grossWeight
  }

  // ----- Append-only tables -----

  datatype Edge = Edge(from: Option<Status>, to: Status)

  datatype Action = CorrectData | CorrectRecordedStatus | ReopenWorkflow | NoAction

  datatype Correction = Correction(reopens: bool, expectedRevision: int)

  datatype TargetModule =
    | TransactionModule | StatusModule | RemarkModule
    | WeighbridgeModule | VehicleModule | QcMaterialModule | IncomingMaterialModule | WarehouseModule

  /** A TransactionCorrectionItem; target None is the transaction itself. */
  datatype StoredItem = StoredItem(
    correction: nat,
    targetModule: TargetModule,
    target: Option<Ref>,
    replacement: Option<Ref>,
    field: Field,
    oldValue: Json,
    newValue: Json)

  datatype RiskLevel = Safe | Warning | Critical

  datatype FraudCheck = FraudCheck(riskLevel: RiskLevel, deviation: real)

  datatype Dossier = Dossier(
    row: Row,
    tables: Tables,
    history: seq<Edge>,
    corrections: seq<Correction>,
    items: seq<StoredItem>,
    fraudChecks: seq<FraudCheck>)

  const INITIAL_REVISION := 1

  /** What gate check-in creates; the warehouse unit is not among its columns. */
  function NewDossier(pt: ProcessType, info: map<Field, Json>): Dossier {
    Dossier(
      Row(pt, Registered, INITIAL_REVISION, false, None, None, None, None, None,
          None, None, None, None, None, None, None, None, None, None, None, None, info - {WarehouseUnit}),
      Tables([], [], [], [], []),
      [Edge(None, Registered)], [], [], [])
  }

  function Abs(x: real): real {
    if x < 0.0 then -x else x
  }

  /** Over 5 per cent of the net weight is critical, over 2 a warning; a zero net counts as no deviation. */
  function RiskOf(net: real, deviation: real): RiskLevel {
    if net > 0.0 && deviation * 100.0 > 5.0 * net then Critical
    else if net > 0.0 && deviation * 100.0 > 2.0 * net then Warning
    else Safe
  }

  function Assess(net: real, actual: real): FraudCheck {
    FraudCheck(RiskOf(net, Abs(net - actual)), Abs(net - actual))
  }

  // ----- Lineages -----

  /**
   * Revisions are exactly 1..n; only the last record can be current; every other names one of this
   * transaction's corrections.
   */
  ghost predicate Lineage(vs: seq<Version>, corrections: nat) {
    forall i :: 0 <= i < |vs| ==>
      && vs[i].revision == i + 1
      && (vs[i].isCurrent ==> i == |vs| - 1 && vs[i].supersededBy == None)
      && (!vs[i].isCurrent ==> vs[i].supersededBy.Some? && vs[i].supersededBy.value < corrections)
  }

  /** How a table may change: rows stay, non-current rows stay as they are, and identity never moves. */
  ghost predicate Extends(after: seq<Version>, before: seq<Version>) {
    && |before| <= |after|
    && forall i :: 0 <= i < |before| ==>
      && after[i].revision == before[i].revision
      && (!before[i].isCurrent ==> after[i] == before[i])
  }

  lemma {:induction false} MaxRevisionOfLineage(vs: seq<Version>, corrections: nat)
    requires Lineage(vs, corrections)
    ensures MaxRevision(vs) == |vs|
  {
    if vs != [] {
      var init := vs[..|vs| - 1];
      MaxRevisionOfPrefix(init);
    }
  }

  lemma {:induction false} MaxRevisionOfPrefix(vs: seq<Version>)
    requires forall i :: 0 <= i < |vs| ==> vs[i].revision == i + 1
    ensures MaxRevision(vs) == |vs|
  {
    if vs != [] {
      var init := vs[..|vs| - 1];
      assert forall i :: 0 <= i < |init| ==> init[i] == vs[i];
      MaxRevisionOfPrefix(init);
    }
  }

  /** The two ways to number a revision agree: max + 1 on insertion, the superseded one's + 1 on correction. */
  lemma InsertKeepsLineage(vs: seq<Version>, fields: map<Field, Json>, corrections: nat)
    requires Lineage(vs, corrections) && !HasCurrent(vs)
    ensures Lineage(Inserted(vs, fields), corrections)
    ensures Extends(Inserted(vs, fields), vs)
    ensures CurrentAt(Inserted(vs, fields)) == Some(|vs|)
  {
    MaxRevisionOfLineage(vs, corrections);
  }

  lemma SupersedeKeepsLineage(vs: seq<Version>, correction: nat)
    requires Lineage(vs, correction)
    ensures Lineage(SupersedeCurrent(vs, correction), correction + 1)
    ensures Extends(SupersedeCurrent(vs, correction), vs)
    ensures !HasCurrent(SupersedeCurrent(vs, correction))
  {}

  lemma CurrentIsLast(vs: seq<Version>, corrections: nat)
    requires Lineage(vs, corrections)
    ensures CurrentAt(vs) == if vs != [] && vs[|vs| - 1].isCurrent then Some(|vs| - 1) else None
  {}
}
