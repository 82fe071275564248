/**
 * Which calls the states a run reaches admit, and what each admitted call writes to the row and the record beside it.
 */
module Effects {
  import opened Prelude
  import opened Workflow
  import opened Records
  import opened Steps
  import opened Stages
  import opened Timeline
  import opened StatusHistory
  import Progress
  import GbjChecklist

  // ----- Admission -----

  /** The status alone admits a call, with what its form must say; the void quotes the revision. */
  predicate Admitted(f: Forward, row: Row) {
    match f
    case WeighIn(weight, _, _, _) => weight >= 0.01 && row.status == Registered
    case WeighOut(weight, _, _, _) =>
      && weight >= 0.01 && InWeight(row).Some?
      && (row.status == IncomingCheckRejected || row.status == QcVehicleRejected
          || (row.status == IncomingCheckPassed && weight < InWeight(row).value)
          || (row.status == WarehouseDone && weight > InWeight(row).value))
    case StartQc(_) => row.status == QcVehiclePending || row.status == IncomingCheckPending
    case SubmitVehicleCheck(form, _, _, _, _) =>
      && (row.status == QcVehiclePending || row.status == QcVehicleInProgress)
      && (row.processType == GBJ ==> GbjChecklist.Decide(GbjChecklist.SEVERITY, form).Ok?)
    case SubmitIncomingCheck(_, _, _) => row.status == IncomingCheckPending || row.status == IncomingCheckInProgress
    case SubmitIncomingAtWarehouse(_, _, _) => row.status == IncomingCheckPending
    case StartWarehouse(_, _) => row.status == QcVehiclePassed
    case CompleteWarehouse(weight, quantity, _, _) =>
      && row.status == WarehouseInProgress && (weight.Some? || quantity.Some?)
      && (weight.Some? ==> weight.value >= 0.01) && (quantity.Some? ==> quantity.value >= 1.0)
    case CompleteAnalysis(_, _) => row.status == WarehouseInProgress && row.processType == GBB
    case CheckOut(_) => row.status == WeighOutDone
    case CancelAtGate(_, _) => row.status != Completed && row.status != Cancelled
    case Cancel(_, _) => row.status != Completed && row.status != Cancelled
    case Void(expectedRevision, _, _) =>
      row.status != Completed && !row.isVoided && expectedRevision == row.revision
  }

  lemma WeighingAdmitted(f: Forward, s: Dossier)
    requires Staged(s) && (f.WeighIn? || f.WeighOut?)
    ensures ApplyForward(f, s).Ok? <==> Admitted(f, s.row)
  {
    hide HasCurrent, Inserted, KnownInWeight, Assess, WeighRecord;
    InWeightFallbackNeverNeeded(s);
    DuplicateGuardsNeverFire(f, s);
    var later := LaterTables(s.row.status);
    assert InWeights in later ==> !HasCurrent(s.tables.Get(InWeights));
    assert OutWeights in later ==> !HasCurrent(s.tables.Get(OutWeights));
  }

  lemma CheckingAdmitted(f: Forward, s: Dossier)
    requires Staged(s)
    requires f.StartQc? || f.SubmitVehicleCheck? || f.SubmitIncomingCheck? || f.SubmitIncomingAtWarehouse?
    ensures ApplyForward(f, s).Ok? <==> Admitted(f, s.row)
  {
    hide HasCurrent, Inserted, VehicleRecord, MaterialColumns, GbjChecklist.Decide;
    var later := LaterTables(s.row.status);
    assert VehicleChecks in later ==> !HasCurrent(s.tables.Get(VehicleChecks));
    assert MaterialChecks in later ==> !HasCurrent(s.tables.Get(MaterialChecks));
  }

  lemma OthersAdmitted(f: Forward, s: Dossier)
    requires Staged(s)
    requires f.StartWarehouse? || f.CompleteWarehouse? || f.CompleteAnalysis? || f.CheckOut? || f.CancelAtGate?
      || f.Cancel? || f.Void?
    ensures ApplyForward(f, s).Ok? <==> Admitted(f, s.row)
  {
    hide HasCurrent, Inserted, FinishedProcess, Measured, Annotated, LaterTables, ActiveAt;
  }

  /** On the states a run reaches, a call with nothing in between goes through exactly when it is admitted. */
  lemma AdmittedIff(f: Forward, s: Dossier)
    requires Staged(s)
    ensures ApplyForward(f, s).Ok? <==> Admitted(f, s.row)
  {
    hide Staged, Admitted, ApplyForward;
    if f.WeighIn? || f.WeighOut? {
      WeighingAdmitted(f, s);
    } else if f.StartQc? || f.SubmitVehicleCheck? || f.SubmitIncomingCheck? || f.SubmitIncomingAtWarehouse? {
      CheckingAdmitted(f, s);
    } else {
      OthersAdmitted(f, s);
    }
  }

  // ----- Every edge is taken -----

  const FINDING := GbjChecklist.RawItem(Some(false), Some(GbjChecklist.Photo(true, "image/png", 4)))

  const REJECTING := GbjChecklist.Request(GbjChecklist.Reject, None, None,
    Some([FINDING, Progress.ALL_OK, Progress.ALL_OK, Progress.ALL_OK, Progress.ALL_OK]))

  lemma RejectingRejects(pt: ProcessType)
    ensures VehicleVerdict(pt, REJECTING) == Some(false)
  {
    var items := REJECTING.items.value;
    assert GbjChecklist.ToLower("image/png") == "image/png" && GbjChecklist.ALLOWED_MIMES[1] == "image/png";
    assert GbjChecklist.ItemValid(FINDING) && GbjChecklist.ItemValid(Progress.ALL_OK);
    assert forall i :: 0 <= i < |items| ==> items[i] == FINDING || items[i] == Progress.ALL_OK;
    assert !GbjChecklist.CheckedItems(items)[0].ok;
  }

  /** Above the in-weight for a loaded truck, the scale's minimum for an emptied one. */
  function OutWeightFor(row: Row): real {
    if row.status != WarehouseDone then MIN_WEIGHT
    else if InWeight(row).Some? && InWeight(row).value > 0.0 then InWeight(row).value + 1.0
    else 1.0
  }

  function CallTo(row: Row, to: Status): Forward {
    match to
    case QcVehiclePending => WeighIn(1.0, Null, Null, 0)
    case QcVehicleInProgress => StartQc(0)
    case QcVehiclePassed => SubmitVehicleCheck(Progress.CLEAN_FORM, map[], Null, Null, 0)
    case QcVehicleRejected => SubmitVehicleCheck(REJECTING, map[], Null, Null, 0)
    case WarehouseInProgress => StartWarehouse(Null, 0)
    case WarehouseDone => CompleteWarehouse(None, Some(1.0), map[], 0)
    case IncomingCheckPending => CompleteWarehouse(None, Some(1.0), map[], 0)
    case IncomingCheckInProgress => StartQc(0)
    case IncomingCheckPassed => SubmitIncomingCheck(true, map[], 0)
    case IncomingCheckRejected => SubmitIncomingCheck(false, map[], 0)
    case WeighOutDone => WeighOut(OutWeightFor(row), Null, Null, 0)
    case Completed => CheckOut(0)
    case _ => Cancel("", 0)
  }

  lemma CallAdmitted(s: Dossier, to: Status)
    requires Staged(s) && to in Successors(s.row.status) && StatusFits(to, s.row.processType)
    requires to == WeighOutDone ==>
      InWeight(s.row).Some? && (s.row.status == IncomingCheckPassed ==> InWeight(s.row).value > 0.01)
    ensures Admitted(CallTo(s.row, to), s.row)
  {
    hide HasCurrent, LaterTables, ActiveAt, VehicleVerdict, GbjChecklist.Decide;
    Progress.CleanFormPasses(s.row.processType);
    RejectingRejects(s.row.processType);
    VerdictDecided(s.row.processType, Progress.CLEAN_FORM);
    VerdictDecided(s.row.processType, REJECTING);
  }

  lemma VerdictDecided(pt: ProcessType, form: GbjChecklist.Request)
    ensures pt == GBJ && VehicleVerdict(pt, form).Some? ==> GbjChecklist.Decide(GbjChecklist.SEVERITY, form).Ok?
  {}

  lemma CallLands(s: Dossier, to: Status)
    requires to in Successors(s.row.status) && StatusFits(to, s.row.processType)
    requires ApplyForward(CallTo(s.row, to), s).Ok?
    ensures ApplyForward(CallTo(s.row, to), s).value.row.status == to
  {
    hide HasCurrent, ActiveAt, Inserted, FinishedProcess, VehicleRecord, VehicleVerdict, Measured, MaterialColumns,
         KnownInWeight, Assess;
    Progress.CleanFormPasses(s.row.processType);
    RejectingRejects(s.row.processType);
  }

  /**
   * The status graph has no edge that no call takes: from every state a run reaches, a call leads along each edge to a
   * status of its process type; a weigh-out needs an in-weight, after accepted goods one over the scale's minimum.
   */
  lemma EveryEdgeTaken(s: Dossier, to: Status)
    requires Staged(s) && to in Successors(s.row.status) && StatusFits(to, s.row.processType)
    requires to == WeighOutDone ==>
      InWeight(s.row).Some? && (s.row.status == IncomingCheckPassed ==> InWeight(s.row).value > 0.01)
    ensures exists f :: ApplyForward(f, s).Ok? && ApplyForward(f, s).value.row.status == to
  {
    hide ApplyForward, Staged, Admitted, CallTo;
    CallAdmitted(s, to);
    AdmittedIff(CallTo(s.row, to), s);
    CallLands(s, to);
  }

  // ----- Weighing -----

  /** The weight goes to the row's in-weight and to the record, with what else was sent; vehicle control may begin. */
  lemma WeighInRecorded(weight: real, ticket: Json, remarks: Json, now: int, s: Dossier)
    requires Lineages(s) && Staged(s) && Timely(s.row) && ReadWeighIn(weight, s).None?
    ensures var r := CommitWeighIn(weight, ticket, remarks, now, s.row, s);
      && r.Ok? && NewestIs(r.value.tables.inWeights, s.tables.inWeights)
      && WeighedAs(r.value.tables.inWeights, InWeight(r.value.row), weight, ticket, remarks)
      && r.value.row.status == QcVehiclePending
      && r.value.row.weighInAt == r.value.row.qcStartAt == Some(now)
  {
    hide HasCurrent, Inserted, Lineages, WeighRecord, NewestIs;
    DuplicateGuardsNeverFire(WeighIn(weight, ticket, remarks, now), s);
    InsertedNewest(s, InWeights, WeighRecord(weight, ticket, remarks));
    RecordWeighed(weight, ticket, remarks);
  }

  /** The newest record and the row show the weight as it was sent. */
  ghost predicate WeighedAs(vs: seq<Version>, onRow: Option<real>, weight: real, ticket: Json, remarks: Json) {
    && vs != [] && onRow == Some(weight)
    && FieldOf(vs[|vs| - 1].fields, Weight) == Num(weight)
    && FieldOf(vs[|vs| - 1].fields, TicketNumber) == ticket
    && FieldOf(vs[|vs| - 1].fields, Remarks) == remarks
  }

  lemma RecordWeighed(weight: real, ticket: Json, remarks: Json)
    ensures var fields := WeighRecord(weight, ticket, remarks);
      && FieldOf(fields, Weight) == Num(weight) && FieldOf(fields, TicketNumber) == ticket
      && FieldOf(fields, Remarks) == remarks
  {}

  lemma WeighOutRecorded(weight: real, ticket: Json, remarks: Json, now: int, s: Dossier)
    requires Lineages(s) && Staged(s) && ReadWeighOut(weight, s).None?
    ensures var r := CommitWeighOut(weight, ticket, remarks, now, s, s);
      && r.Ok? && NewestIs(r.value.tables.outWeights, s.tables.outWeights)
      && WeighedAs(r.value.tables.outWeights, OutWeight(r.value.row), weight, ticket, remarks)
      && InWeight(r.value.row) == InWeight(s.row)
      && r.value.row.status == WeighOutDone && r.value.row.weighOutAt == Some(now)
  {
    hide HasCurrent, Inserted, Lineages, WeighRecord, NewestIs, KnownInWeight, Assess;
    InWeightFallbackNeverNeeded(s);
    DuplicateGuardsNeverFire(WeighOut(weight, ticket, remarks, now), s);
    InsertedNewest(s, OutWeights, WeighRecord(weight, ticket, remarks));
    RecordWeighed(weight, ticket, remarks);
  }

  // ----- Quality control -----

  /** The stage that waits goes into progress, and keeps the start it may already have. */
  lemma QcStartRecorded(now: int, s: Dossier)
    requires ReadStartQc(s).None?
    ensures var r := CommitStartQc(now, s.row, s);
      && r.Ok? && r.value.tables == s.tables && r.value.row.info == s.row.info
      && (s.row.status == QcVehiclePending || s.row.status == IncomingCheckPending)
      && (s.row.status == QcVehiclePending ==>
          && r.value.row.status == QcVehicleInProgress && r.value.row.incomingQcStartAt == s.row.incomingQcStartAt
          && r.value.row.qcStartAt == if s.row.qcStartAt.Some? then s.row.qcStartAt else Some(now))
      && (s.row.status == IncomingCheckPending ==>
          && r.value.row.status == IncomingCheckInProgress && r.value.row.qcStartAt == s.row.qcStartAt
          && r.value.row.incomingQcStartAt ==
            if s.row.incomingQcStartAt.Some? then s.row.incomingQcStartAt else Some(now))
  {}

  predicate CheckedAs(fields: map<Field, Json>, checks: map<Field, bool>, f: Field) {
    f in checks ==> FieldOf(fields, f) == Text(if checks[f] then "PASS" else "REJECT")
  }

  predicate AllChecks(fields: map<Field, Json>, checks: map<Field, bool>) {
    && CheckedAs(fields, checks, VehicleCleanliness) && CheckedAs(fields, checks, VehicleOdor)
    && CheckedAs(fields, checks, PestEvidence) && CheckedAs(fields, checks, VehicleCondition)
    && CheckedAs(fields, checks, DocumentCompleteness) && CheckedAs(fields, checks, SealCondition)
  }

  /**
   * The verdict is the inspector's for inbound goods and the server's decision for GBJ; the record keeps each check.
   */
  lemma VehicleCheckContents(
    form: GbjChecklist.Request, checks: map<Field, bool>, notes: Json, checklist: Json, now: int, s: Dossier)
    requires Lineages(s) && ReadVehicleCheck(form, s).None?
    ensures var r := CommitVehicleCheck(form, checks, notes, checklist, now, s.row, s);
      && r.Ok? && |r.value.tables.vehicleChecks| == |s.tables.vehicleChecks| + 1
      && var fields := r.value.tables.vehicleChecks[|s.tables.vehicleChecks|].fields;
      && var passed := r.value.row.status == QcVehiclePassed;
      && FieldOf(fields, Notes) == notes
      && AllChecks(fields, checks)
      && (s.row.processType != GBJ ==>
          (passed <==> form.outcome == GbjChecklist.Pass) && FieldOf(fields, ChecklistItems) == checklist)
      && (s.row.processType == GBJ ==>
          && var d := GbjChecklist.Decide(GbjChecklist.SEVERITY, form);
          && d.Ok? && (passed <==> d.value.outcome == GbjChecklist.Pass)
          && FieldOf(fields, ChecklistItems) == Checklist(d.value.items)
          && (d.value.mode == GbjChecklist.NormalPass <==> FieldOf(fields, DecisionMode) == Text("NORMAL_PASS")))
  {
    hide HasCurrent, Inserted, Lineages, GbjChecklist.Decide, NewestIs, VehicleRecord, VehicleVerdict, AllChecks;
    var fields := VehicleRecord(s.row.processType, form, checks, notes, checklist, OrNow(s.row.qcStartAt, now), now);
    InsertedNewest(s, VehicleChecks, fields);
    NewestAt(s.tables.vehicleChecks, Inserted(s.tables.vehicleChecks, fields));
    if s.row.processType == GBJ {
      GbjNotes(form, checks, notes, checklist, OrNow(s.row.qcStartAt, now), now);
      GbjDecision(form, checks, notes, checklist, OrNow(s.row.qcStartAt, now), now);
    } else {
      InboundFields(s.row.processType, form, checks, notes, checklist, OrNow(s.row.qcStartAt, now), now);
    }
    ChecksKept(s.row.processType, form, checks, notes, checklist, OrNow(s.row.qcStartAt, now), now);
  }

  lemma NewestAt(before: seq<Version>, vs: seq<Version>)
    requires NewestIs(vs, before)
    ensures |vs| == |before| + 1
  {}

  lemma InboundFields(
    pt: ProcessType, form: GbjChecklist.Request, checks: map<Field, bool>, notes: Json, checklist: Json,
    startedAt: Option<int>, now: int)
    requires pt != GBJ
    ensures var fields := VehicleRecord(pt, form, checks, notes, checklist, startedAt, now);
      && VehicleVerdict(pt, form) == Some(form.outcome == GbjChecklist.Pass)
      && FieldOf(fields, Notes) == notes && FieldOf(fields, ChecklistItems) == checklist
  {
    hide GbjChecklist.Decide, OptDate, ResultWord;
  }

  lemma GbjNotes(
    form: GbjChecklist.Request, checks: map<Field, bool>, notes: Json, checklist: Json, startedAt: Option<int>,
    now: int)
    requires VehicleVerdict(GBJ, form).Some?
    ensures FieldOf(VehicleRecord(GBJ, form, checks, notes, checklist, startedAt, now), Notes) == notes
  {
    hide GbjChecklist.Decide, OptDate, ModeWord, ResultWord;
  }

  lemma ChecksKept(
    pt: ProcessType, form: GbjChecklist.Request, checks: map<Field, bool>, notes: Json, checklist: Json,
    startedAt: Option<int>, now: int)
    requires VehicleVerdict(pt, form).Some?
    ensures AllChecks(VehicleRecord(pt, form, checks, notes, checklist, startedAt, now), checks)
  {
    hide VehicleRecord, VehicleVerdict, CheckedAs;
    VehicleChecksKept(pt, form, checks, notes, checklist, startedAt, now);
    LoadChecksKept(pt, form, checks, notes, checklist, startedAt, now);
  }

  lemma VehicleChecksKept(
    pt: ProcessType, form: GbjChecklist.Request, checks: map<Field, bool>, notes: Json, checklist: Json,
    startedAt: Option<int>, now: int)
    requires VehicleVerdict(pt, form).Some?
    ensures var fields := VehicleRecord(pt, form, checks, notes, checklist, startedAt, now);
      CheckedAs(fields, checks, VehicleCleanliness) && CheckedAs(fields, checks, VehicleOdor)
        && CheckedAs(fields, checks, VehicleCondition)
  {
    hide GbjChecklist.Decide, OptDate, ModeWord, VehicleVerdict;
  }

  lemma LoadChecksKept(
    pt: ProcessType, form: GbjChecklist.Request, checks: map<Field, bool>, notes: Json, checklist: Json,
    startedAt: Option<int>, now: int)
    requires VehicleVerdict(pt, form).Some?
    ensures var fields := VehicleRecord(pt, form, checks, notes, checklist, startedAt, now);
      CheckedAs(fields, checks, PestEvidence) && CheckedAs(fields, checks, DocumentCompleteness)
        && CheckedAs(fields, checks, SealCondition)
  {
    hide GbjChecklist.Decide, OptDate, ModeWord, VehicleVerdict;
  }

  lemma GbjDecision(
    form: GbjChecklist.Request, checks: map<Field, bool>, notes: Json, checklist: Json, startedAt: Option<int>,
    now: int)
    requires VehicleVerdict(GBJ, form).Some?
    ensures var fields := VehicleRecord(GBJ, form, checks, notes, checklist, startedAt, now);
      && var d := GbjChecklist.Decide(GbjChecklist.SEVERITY, form);
      && d.Ok? && VehicleVerdict(GBJ, form) == Some(d.value.outcome == GbjChecklist.Pass)
      && FieldOf(fields, ChecklistItems) == Checklist(d.value.items)
      && (d.value.mode == GbjChecklist.NormalPass <==> FieldOf(fields, DecisionMode) == Text("NORMAL_PASS"))
  {
    hide GbjChecklist.Decide, OptDate, ResultWord;
  }

  /** A material check stores smell and colour as words, yes-or-no columns as words, and every other detail as sent. */
  lemma MaterialCheckContents(passed: bool, details: map<Field, Json>, now: int, s: Dossier, f: Field)
    requires Lineages(s) && Staged(s) && ReadIncomingCheck(passed, s).None? && f in details
    ensures var r := CommitIncomingCheck(passed, details, now, s.row, s);
      && r.Ok? && |r.value.tables.materialChecks| == |s.tables.materialChecks| + 1
      && var fields := r.value.tables.materialChecks[|s.tables.materialChecks|].fields;
      && (r.value.row.status == IncomingCheckPassed <==> passed)
      && FieldOf(fields, StartedAt) == OptDate(r.value.row.incomingQcStartAt)
      && r.value.row.incomingQcStartAt == (if s.row.incomingQcStartAt.Some? then s.row.incomingQcStartAt else Some(now))
      && (f in {Odor, Color} ==> FieldOf(fields, f) == MapToCheckResult(details[f]))
      && (f in {BeanCondition, ItemCondition, PackagingCondition, QuantityCheck, DocumentCheck, VisualInspection} ==>
          FieldOf(fields, f) ==
            if details[f].Flag? then Text(if details[f].b then "PASS" else "REJECT") else Null)
      && (f in {Moisture, ForeignMatter, SampleWeight, GoodBeanPercentage, DefectNotes, Notes} ==>
          FieldOf(fields, f) == details[f])
  {
    hide HasCurrent, Inserted, Lineages, NewestIs, MaterialColumns, FieldOf, MapToCheckResult;
    var fields := MaterialColumns(details)
      + map[CheckOutcome := ResultWord(passed), StartedAt := OptDate(OrNow(s.row.incomingQcStartAt, now)),
        CompletedAt := Date(now)];
    DuplicateGuardsNeverFire(SubmitIncomingCheck(passed, details, now), s);
    InsertedNewest(s, MaterialChecks, fields);
    NewestAt(s.tables.materialChecks, Inserted(s.tables.materialChecks, fields));
    MaterialContents(passed, details, OptDate(OrNow(s.row.incomingQcStartAt, now)), now, f);
  }

  lemma MaterialContents(passed: bool, details: map<Field, Json>, startedAt: Json, now: int, f: Field)
    requires f in details
    ensures var fields := MaterialColumns(details)
      + map[CheckOutcome := ResultWord(passed), StartedAt := startedAt, CompletedAt := Date(now)];
      && FieldOf(fields, StartedAt) == startedAt
      && (f in {Odor, Color} ==> FieldOf(fields, f) == MapToCheckResult(details[f]))
      && (f in {BeanCondition, ItemCondition, PackagingCondition, QuantityCheck, DocumentCheck, VisualInspection} ==>
          FieldOf(fields, f) ==
            if details[f].Flag? then Text(if details[f].b then "PASS" else "REJECT") else Null)
      && (f in {Moisture, ForeignMatter, SampleWeight, GoodBeanPercentage, DefectNotes, Notes} ==>
          FieldOf(fields, f) == details[f])
  {
    hide MapToCheckResult;
  }

  /** A word counts whatever its case, and what is stored for it counts as itself. */
  lemma WordsStable(v: Json, word: string)
    ensures MapToCheckResult(MapToCheckResult(v)) == MapToCheckResult(v)
    ensures MapToCheckResult(Text(ToUpper(word))) == MapToCheckResult(Text(word))
    ensures ToUpper(word) in ["PASS", "NORMAL", "OK", "GOOD"] <==> MapToCheckResult(Text(word)) == Text("PASS")
    ensures ToUpper(word) in ["REJECT", "ABNORMAL", "NOT_OK", "BAD", "REJECTED"] <==>
      MapToCheckResult(Text(word)) == Text("REJECT")
  {
    assert ToUpper("PASS") == "PASS" && ToUpper("REJECT") == "REJECT" && ToUpper("NA") == "NA";
    assert ToUpper(ToUpper(word)) == ToUpper(word);
  }

  // ----- The warehouse -----

  /** A column takes what was sent for it, and keeps what it held when nothing was. */
  predicate Took(after: map<Field, Json>, before: map<Field, Json>, details: map<Field, Json>, f: Field) {
    FieldOf(after, f) == if f in details then details[f] else FieldOf(before, f)
  }

  predicate TookAll(after: map<Field, Json>, before: map<Field, Json>, details: map<Field, Json>) {
    && Took(after, before, details, Unit) && Took(after, before, details, PalletCount)
    && Took(after, before, details, BagCount) && Took(after, before, details, RollCount)
    && Took(after, before, details, Condition) && FieldOf(after, StartAt) == FieldOf(before, StartAt)
  }

  /** Everything measured goes to the process that was being worked on, the rest of which stays. */
  lemma CompletionContents(
    weight: Option<real>, quantity: Option<real>, details: map<Field, Json>, now: int, s: Dossier)
    requires Lineages(s) && Staged(s) && ReadCompleteWarehouse(weight, quantity, s).None?
    ensures var r := CommitCompleteWarehouse(weight, quantity, details, now, s.row, s);
      && r.Ok? && |r.value.tables.warehousing| == |s.tables.warehousing| > 0
      && var last := |s.tables.warehousing| - 1;
      TookAll(r.value.tables.warehousing[last].fields, s.tables.warehousing[last].fields, details)
  {
    hide HasCurrent, Inserted, Lineages, Staged, Measured, TransitionAllowed, FinishedProcess, TookAll;
    CompletedInPlace(s, Measured(weight, quantity, details, now), OptDate(OrNow(s.row.warehouseStartAt, now)));
    CompletionOpen(weight, quantity, s);
    var last := |s.tables.warehousing| - 1;
    MeasuredTaken(s.tables.warehousing[last].fields, weight, quantity, details, now);
  }

  lemma MeasuredTaken(
    before: map<Field, Json>, weight: Option<real>, quantity: Option<real>, details: map<Field, Json>, now: int)
    ensures TookAll(before + Measured(weight, quantity, details, now), before, details)
  {
    hide Measured, Took;
    MeasuredCounts(before, weight, quantity, details, now);
    MeasuredGoods(before, weight, quantity, details, now);
  }

  lemma MeasuredCounts(
    before: map<Field, Json>, weight: Option<real>, quantity: Option<real>, details: map<Field, Json>, now: int)
    ensures var after := before + Measured(weight, quantity, details, now);
      Took(after, before, details, PalletCount) && Took(after, before, details, BagCount)
        && Took(after, before, details, RollCount)
  {}

  lemma MeasuredGoods(
    before: map<Field, Json>, weight: Option<real>, quantity: Option<real>, details: map<Field, Json>, now: int)
    ensures var after := before + Measured(weight, quantity, details, now);
      Took(after, before, details, Unit) && Took(after, before, details, Condition)
        && FieldOf(after, StartAt) == FieldOf(before, StartAt)
  {}

  lemma CompletionOpen(weight: Option<real>, quantity: Option<real>, s: Dossier)
    requires Staged(s) && ReadCompleteWarehouse(weight, quantity, s).None?
    ensures s.row.status == WarehouseInProgress && s.row.warehouseEndAt.None?
  {
    hide HasCurrent, LaterTables, ActiveAt;
  }

  lemma CompletedInPlace(s: Dossier, measured: map<Field, Json>, startedAt: Json)
    requires Lineages(s) && Staged(s)
    ensures var vs := s.tables.warehousing;
      s.row.status == WarehouseInProgress ==>
        && vs != []
        && FinishedProcess(vs, measured, startedAt) ==
          vs[|vs| - 1 := vs[|vs| - 1].(fields := vs[|vs| - 1].fields + measured)]
  {
    hide HasCurrent, LaterTables, Lineages, ActiveAt;
    if s.row.status == WarehouseInProgress {
      OpenProcessIsLast(s);
    }
  }

  lemma WarehouseStartContents(remarks: Json, now: int, s: Dossier)
    requires Lineages(s) && ReadStartWarehouse(s).None?
    ensures var r := CommitStartWarehouse(remarks, now, s.row, s);
      && r.Ok? && |r.value.tables.warehousing| == |s.tables.warehousing| + 1
      && var fields := r.value.tables.warehousing[|s.tables.warehousing|].fields;
      && FieldOf(fields, Remarks) == remarks && r.value.row.status == WarehouseInProgress
  {
    hide HasCurrent, Inserted, Lineages, NewestIs;
    var fields := map[StartAt := Date(now), Remarks := remarks];
    InsertedNewest(s, Warehousing, fields);
    NewestAt(s.tables.warehousing, Inserted(s.tables.warehousing, fields));
  }

  /** The warehouse's own material check keeps the verdict and the notes. */
  lemma MaterialAtWarehouseContents(passed: bool, notes: Json, now: int, s: Dossier)
    requires Lineages(s) && ReadIncomingAtWarehouse(passed, s).None?
    ensures var r := CommitIncomingAtWarehouse(passed, notes, now, s.row, s);
      && r.Ok? && |r.value.tables.materialChecks| == |s.tables.materialChecks| + 1
      && FieldOf(r.value.tables.materialChecks[|s.tables.materialChecks|].fields, Notes) == notes
      && (r.value.row.status == IncomingCheckPassed <==> passed)
  {
    hide HasCurrent, Inserted, Lineages, NewestIs;
    var fields := map[CheckOutcome := ResultWord(passed), Notes := notes, CompletedAt := Date(now)];
    InsertedNewest(s, MaterialChecks, fields);
    NewestAt(s.tables.materialChecks, Inserted(s.tables.materialChecks, fields));
  }

  // ----- Leaving -----

  /** A call that ends a transaction writes its times, its reason and one edge, and nothing else. */
  lemma LeavingRecorded(f: Forward, s: Dossier)
    requires Staged(s) && (f.CheckOut? || f.CancelAtGate? || f.Cancel? || f.Void?) && ApplyForward(f, s).Ok?
    ensures var after := ApplyForward(f, s).value;
      && after.tables == s.tables
      && after.row.grossWeight == s.row.grossWeight && after.row.tareWeight == s.row.tareWeight
      && after.row.actualWeight == s.row.actualWeight && after.row.weighOutAt == s.row.weighOutAt
      && (f.CheckOut? ==>
          && after.row.status == Completed && after.row.gateOutAt == after.row.completedAt == Some(f.now)
          && after.row.info == s.row.info)
      && (f.CancelAtGate? || f.Cancel? ==>
          && after.row.status == Cancelled && after.row.cancelledAt == Some(f.now)
          && after.row.isVoided == s.row.isVoided
          && FieldOf(after.row.info, CancellationReason) == Text(f.why))
      && (f.Void? ==>
          && after.row.status == Cancelled && after.row.isVoided && after.row.voidedAt == Some(f.now)
          && after.row.cancelledAt == (if s.row.cancelledAt.Some? then s.row.cancelledAt else Some(f.now))
          && var reason := FieldOf(s.row.info, CancellationReason);
          && FieldOf(after.row.info, CancellationReason) ==
            if reason == Null || reason == Text("") then Text(f.why) else reason)
  {
    hide HasCurrent;
  }
}
