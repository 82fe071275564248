/**
 * What each status says about the child records, and that every call keeps it: the forward steps rely
 * on the status alone, and a reopening clears exactly what lies downstream of its target.
 */
module Stages {
  import opened Prelude
  import opened Workflow
  import opened Records
  import opened Steps
  import opened Corrections
  import opened Protocol

  /** Tables that belong to a stage not reached yet. */
  function LaterTables(s: Status): set<TableId> {
    match s
    case Registered => {InWeights, OutWeights, VehicleChecks, MaterialChecks, Warehousing}
    case WeighInDone => {OutWeights, VehicleChecks, MaterialChecks, Warehousing}
    case QcVehiclePending => {OutWeights, VehicleChecks, MaterialChecks, Warehousing}
    case QcVehicleInProgress => {OutWeights, VehicleChecks, MaterialChecks, Warehousing}
    case QcVehiclePassed => {OutWeights, MaterialChecks, Warehousing}
    case QcVehicleRejected => {OutWeights, MaterialChecks, Warehousing}
    case WarehouseInProgress => {OutWeights, MaterialChecks}
    case WarehouseDone => {OutWeights, MaterialChecks}
    case IncomingCheckPending => {OutWeights, MaterialChecks}
    case IncomingCheckInProgress => {OutWeights, MaterialChecks}
    case IncomingCheckPassed => {OutWeights}
    case IncomingCheckRejected => {OutWeights}
    case WeighOutDone => {}
    case Completed => {}
    case Cancelled => {}
  }

  /** Statuses up to and including work in the warehouse. */
  predicate BeforeWarehouseEnd(s: Status) {
    s in {Registered, QcVehiclePending, QcVehicleInProgress, QcVehiclePassed, QcVehicleRejected, WarehouseInProgress}
  }

  predicate StatusFits(s: Status, pt: ProcessType) {
    && s != WeighInDone
    && (s in {IncomingCheckPending, IncomingCheckInProgress, IncomingCheckPassed, IncomingCheckRejected} ==>
      Inbound(pt))
    && (s == WarehouseDone ==> pt == GBJ)
  }

  ghost predicate Staged(s: Dossier) {
    && StatusFits(s.row.status, s.row.processType)
    && (forall t :: t in LaterTables(s.row.status) ==> !HasCurrent(s.tables.Get(t)))
    && (BeforeWarehouseEnd(s.row.status) ==> s.row.warehouseEndAt.None?)
    && (s.row.status == WarehouseInProgress ==> ActiveAt(s.tables.warehousing).Some?)
    && (s.row.status == Registered ==> s.row.grossWeight.None? && s.row.tareWeight.None? && s.row.netWeight.None?)
    && (HasCurrent(s.tables.inWeights) ==> InWeight(s.row).Some?)
  }

  ghost predicate LineagesOf(tables: Tables, corrections: nat) {
    forall t :: Lineage(tables.Get(t), corrections)
  }

  ghost predicate Lineages(s: Dossier) {
    LineagesOf(s.tables, |s.corrections|)
  }

  ghost predicate TablesExtend(after: Tables, before: Tables) {
    forall t :: Extends(after.Get(t), before.Get(t))
  }

  lemma ExtendsTransitive(a: Tables, b: Tables, c: Tables)
    requires TablesExtend(c, b) && TablesExtend(b, a)
    ensures TablesExtend(c, a)
  {
    forall t ensures Extends(c.Get(t), a.Get(t)) {
      assert Extends(c.Get(t), b.Get(t)) && Extends(b.Get(t), a.Get(t));
    }
  }

  lemma ExtendsReflexive(a: Tables)
    ensures TablesExtend(a, a)
  {}

  // ----- Forward steps -----

  lemma InsertInto(s: Dossier, t: TableId, fields: map<Field, Json>, after: Tables)
    requires Lineages(s) && !HasCurrent(s.tables.Get(t))
    requires after == s.tables.Set(t, Inserted(s.tables.Get(t), fields))
    ensures LineagesOf(after, |s.corrections|)
    ensures TablesExtend(after, s.tables)
    ensures forall u :: HasCurrent(after.Get(u)) <==> u == t || HasCurrent(s.tables.Get(u))
  {
    assert Lineage(s.tables.Get(t), |s.corrections|);
    InsertKeepsLineage(s.tables.Get(t), fields, |s.corrections|);
    forall u ensures Lineage(after.Get(u), |s.corrections|) && Extends(after.Get(u), s.tables.Get(u)) {
      assert Lineage(s.tables.Get(u), |s.corrections|);
    }
  }

  /** An edit in place changes no identity and no non-current row. */
  lemma EditActive(s: Dossier, t: TableId, i: nat, fields: map<Field, Json>, after: Tables)
    requires Lineages(s) && i < |s.tables.Get(t)| && s.tables.Get(t)[i].isCurrent
    requires after == s.tables.Set(t, s.tables.Get(t)[i := s.tables.Get(t)[i].(fields := fields)])
    ensures LineagesOf(after, |s.corrections|)
    ensures TablesExtend(after, s.tables)
    ensures forall u :: HasCurrent(after.Get(u)) <==> HasCurrent(s.tables.Get(u))
  {
    var vs := s.tables.Get(t);
    assert Lineage(vs, |s.corrections|);
    assert after.Get(t)[i].isCurrent;
    forall u ensures Lineage(after.Get(u), |s.corrections|) && Extends(after.Get(u), s.tables.Get(u)) {
      assert Lineage(s.tables.Get(u), |s.corrections|);
    }
  }

  /** An active process is the current one, the last of its lineage. */
  lemma ActiveIsLast(vs: seq<Version>, corrections: nat)
    requires Lineage(vs, corrections) && ActiveAt(vs).Some?
    ensures ActiveAt(vs).value == |vs| - 1
  {}

  /** What one accepted call must establish. */
  ghost predicate Kept(before: Dossier, after: Dossier) {
    Lineages(after) && Staged(after) && TablesExtend(after.tables, before.tables)
  }

  lemma WeighInKeepsStage(weight: real, ticket: Json, remarks: Json, now: int, s: Dossier)
    requires Lineages(s) && Staged(s)
    requires ReadWeighIn(weight, s).None? && CommitWeighIn(weight, ticket, remarks, now, s.row, s).Ok?
    ensures Kept(s, CommitWeighIn(weight, ticket, remarks, now, s.row, s).value)
  {
    hide Lineage, LineagesOf, TablesExtend, HasCurrent, Inserted;
    var after := CommitWeighIn(weight, ticket, remarks, now, s.row, s).value;
    InsertInto(s, InWeights, WeighRecord(weight, ticket, remarks), after.tables);
  }

  lemma WeighOutKeepsStage(weight: real, ticket: Json, remarks: Json, now: int, s: Dossier)
    requires Lineages(s) && Staged(s)
    requires ReadWeighOut(weight, s).None? && CommitWeighOut(weight, ticket, remarks, now, s, s).Ok?
    ensures Kept(s, CommitWeighOut(weight, ticket, remarks, now, s, s).value)
  {
    hide Lineage, LineagesOf, TablesExtend, HasCurrent, Inserted;
    var after := CommitWeighOut(weight, ticket, remarks, now, s, s).value;
    InsertInto(s, OutWeights, WeighRecord(weight, ticket, remarks), after.tables);
  }

  lemma StartQcKeepsStage(now: int, s: Dossier)
    requires Lineages(s) && Staged(s)
    requires ReadStartQc(s).None? && CommitStartQc(now, s.row, s).Ok?
    ensures Kept(s, CommitStartQc(now, s.row, s).value)
  {}

  lemma VehicleCheckKeepsStage(
    form: GbjChecklist.Request, checks: map<Field, bool>, notes: Json, checklist: Json, now: int, s: Dossier)
    requires Lineages(s) && Staged(s)
    requires ReadVehicleCheck(form, s).None? && CommitVehicleCheck(form, checks, notes, checklist, now, s.row, s).Ok?
    ensures Kept(s, CommitVehicleCheck(form, checks, notes, checklist, now, s.row, s).value)
  {
    hide Lineage, LineagesOf, TablesExtend, HasCurrent, Inserted, VehicleRecord, VehicleVerdict;
    var after := CommitVehicleCheck(form, checks, notes, checklist, now, s.row, s).value;
    InsertInto(s, VehicleChecks,
      VehicleRecord(s.row.processType, form, checks, notes, checklist, OrNow(s.row.qcStartAt, now), now), after.tables);
  }

  lemma IncomingCheckKeepsStage(passed: bool, details: map<Field, Json>, now: int, s: Dossier)
    requires Lineages(s) && Staged(s)
    requires ReadIncomingCheck(passed, s).None? && CommitIncomingCheck(passed, details, now, s.row, s).Ok?
    ensures Kept(s, CommitIncomingCheck(passed, details, now, s.row, s).value)
  {
    hide Lineage, LineagesOf, TablesExtend, HasCurrent, Inserted;
    var after := CommitIncomingCheck(passed, details, now, s.row, s).value;
    InsertInto(s, MaterialChecks, MaterialColumns(details)
      + map[CheckOutcome := ResultWord(passed), StartedAt := OptDate(OrNow(s.row.incomingQcStartAt, now)),
        CompletedAt := Date(now)],
      after.tables);
  }

  lemma IncomingAtWarehouseKeepsStage(passed: bool, notes: Json, now: int, s: Dossier)
    requires Lineages(s) && Staged(s)
    requires ReadIncomingAtWarehouse(passed, s).None? && CommitIncomingAtWarehouse(passed, notes, now, s.row, s).Ok?
    ensures Kept(s, CommitIncomingAtWarehouse(passed, notes, now, s.row, s).value)
  {
    hide Lineage, LineagesOf, TablesExtend, HasCurrent, Inserted;
    var after := CommitIncomingAtWarehouse(passed, notes, now, s.row, s).value;
    InsertInto(s, MaterialChecks, map[CheckOutcome := ResultWord(passed), Notes := notes, CompletedAt := Date(now)],
      after.tables);
  }

  lemma StartWarehouseKeepsStage(remarks: Json, now: int, s: Dossier)
    requires Lineages(s) && Staged(s)
    requires ReadStartWarehouse(s).None? && CommitStartWarehouse(remarks, now, s.row, s).Ok?
    ensures Kept(s, CommitStartWarehouse(remarks, now, s.row, s).value)
  {
    hide Lineage, LineagesOf, TablesExtend, HasCurrent, MaxRevision;
    var after := CommitStartWarehouse(remarks, now, s.row, s).value;
    InsertInto(s, Warehousing, map[StartAt := Date(now), Remarks := remarks], after.tables);
  }

  lemma CompleteWarehouseKeepsStage(
    weight: Option<real>, quantity: Option<real>, details: map<Field, Json>, now: int, s: Dossier)
    requires Lineages(s) && Staged(s)
    requires ReadCompleteWarehouse(weight, quantity, s).None?
    requires CommitCompleteWarehouse(weight, quantity, details, now, s.row, s).Ok?
    ensures Kept(s, CommitCompleteWarehouse(weight, quantity, details, now, s.row, s).value)
  {
    hide Lineage, LineagesOf, TablesExtend, HasCurrent, Inserted;
    var after := CommitCompleteWarehouse(weight, quantity, details, now, s.row, s).value;
    var i := ActiveAt(s.tables.warehousing).value;
    EditActive(s, Warehousing, i,
      s.tables.warehousing[i].fields + Measured(weight, quantity, details, now), after.tables);
  }

  lemma CompleteAnalysisKeepsStage(note: Option<string>, now: int, s: Dossier)
    requires Lineages(s) && Staged(s)
    requires ReadCompleteAnalysis(s).None? && CommitCompleteAnalysis(note, now, s.row, s).Ok?
    ensures Kept(s, CommitCompleteAnalysis(note, now, s.row, s).value)
  {
    var after := CommitCompleteAnalysis(note, now, s.row, s).value;
    var vs := s.tables.warehousing;
    if note.Some? {
      var i := ActiveAt(vs).value;
      EditActive(s, Warehousing, i, vs[i].fields[Remarks := Text(note.value)], after.tables);
      assert Lineage(s.tables.Get(Warehousing), |s.corrections|);
      AnnotatedStaysActive(vs, |s.corrections|, note.value);
    }
  }

  lemma AnnotatedStaysActive(vs: seq<Version>, corrections: nat, remarks: string)
    requires Lineage(vs, corrections) && ActiveAt(vs).Some?
    ensures ActiveAt(Annotated(vs, remarks)) == ActiveAt(vs)
  {
    ActiveIsLast(vs, corrections);
  }

  lemma LeavingKeepsStage(f: Forward, s: Dossier)
    requires Lineages(s) && Staged(s) && ApplyForward(f, s).Ok?
    requires f.CheckOut? || f.CancelAtGate? || f.Cancel? || f.Void?
    ensures Kept(s, ApplyForward(f, s).value)
  {
    hide Lineage, LineagesOf, TablesExtend, HasCurrent;
    var after := ApplyForward(f, s).value;
    ExtendsReflexive(s.tables);
    assert after.tables == s.tables && after.corrections == s.corrections && Terminal(after.row.status);
    assert InWeight(after.row) == InWeight(s.row);
  }

  /** Every forward step keeps the stage invariant and the lineages, and only extends the tables. */
  lemma ForwardKeepsStage(f: Forward, s: Dossier)
    requires Lineages(s) && Staged(s) && ApplyForward(f, s).Ok?
    ensures Kept(s, ApplyForward(f, s).value)
  {
    hide Kept, Staged, Lineages;
    match f
    case WeighIn(weight, ticket, remarks, now) => WeighInKeepsStage(weight, ticket, remarks, now, s);
    case WeighOut(weight, ticket, remarks, now) => WeighOutKeepsStage(weight, ticket, remarks, now, s);
    case StartQc(now) => StartQcKeepsStage(now, s);
    case SubmitVehicleCheck(form, checks, notes, checklist, now) =>
      VehicleCheckKeepsStage(form, checks, notes, checklist, now, s);
    case SubmitIncomingCheck(passed, details, now) => IncomingCheckKeepsStage(passed, details, now, s);
    case SubmitIncomingAtWarehouse(passed, notes, now) => IncomingAtWarehouseKeepsStage(passed, notes, now, s);
    case StartWarehouse(remarks, now) => StartWarehouseKeepsStage(remarks, now, s);
    case CompleteWarehouse(weight, quantity, details, now) =>
      CompleteWarehouseKeepsStage(weight, quantity, details, now, s);
    case CompleteAnalysis(note, now) => CompleteAnalysisKeepsStage(note, now, s);
    case _ => LeavingKeepsStage(f, s);
  }

  // ----- Corrections -----

  lemma SupersedeGroupKeeps(rt: Runtime, c: nat, g: Group, db: Dossier)
    requires Lineages(db) && c < |db.corrections| && SupersedeGroup(rt, c, g, db).Ok?
    ensures var r := SupersedeGroup(rt, c, g, db).value;
      && Lineages(r) && TablesExtend(r.tables, db.tables)
      && r == db.(tables := r.tables, items := r.items)
      && forall t :: HasCurrent(r.tables.Get(t)) <==> HasCurrent(db.tables.Get(t))
  {
    var r := SupersedeGroup(rt, c, g, db).value;
    var vs := db.tables.Get(g.ref.table);
    assert Lineage(vs, |db.corrections|);
    assert r.tables.Get(g.ref.table)[|vs|].isCurrent;
    forall t ensures Lineage(r.tables.Get(t), |db.corrections|) && Extends(r.tables.Get(t), db.tables.Get(t)) {
      assert Lineage(db.tables.Get(t), |db.corrections|);
    }
  }

  lemma {:induction false} SupersedeGroupsKeep(rt: Runtime, c: nat, groups: seq<Group>, db: Dossier)
    requires Lineages(db) && c < |db.corrections| && SupersedeGroups(rt, c, groups, db).Ok?
    ensures var r := SupersedeGroups(rt, c, groups, db).value;
      && Lineages(r) && TablesExtend(r.tables, db.tables)
      && r == db.(tables := r.tables, items := r.items)
      && forall t :: HasCurrent(r.tables.Get(t)) <==> HasCurrent(db.tables.Get(t))
  {
    if groups != [] {
      var init := groups[..|groups| - 1];
      SupersedeGroupsKeep(rt, c, init, db);
      var before := SupersedeGroups(rt, c, init, db).value;
      SupersedeGroupKeeps(rt, c, groups[|groups| - 1], before);
      ExtendsTransitive(db.tables, before.tables, SupersedeGroups(rt, c, groups, db).value.tables);
    }
  }

  lemma HeadedKeepsLineages(req: CorrectionRequest, sorted: Sorted, db: Dossier)
    requires Lineages(db)
    ensures Lineages(Headed(req, sorted, db))
  {
    forall t ensures Lineage(db.tables.Get(t), |db.corrections| + 1) {
      assert Lineage(db.tables.Get(t), |db.corrections|);
    }
  }

  /** What a data correction may touch. */
  lemma CorrectionShape(rt: Runtime, req: CorrectionRequest, db: Dossier)
    requires Lineages(db) && CorrectRecords(rt, req, db).Ok?
    ensures var after := CorrectRecords(rt, req, db).value;
      && Lineages(after) && TablesExtend(after.tables, db.tables)
      && (forall t :: HasCurrent(after.tables.Get(t)) <==> HasCurrent(db.tables.Get(t)))
      && after.history == db.history
      && after.corrections == db.corrections + [Correction(false, req.expectedRevision)]
  {
    hide LineagesOf, TablesExtend, SupersedeGroups, HasCurrent, RowChanges, HasChanges, ChangesTaken, SortItems;
    var sorted := SortItems(rt, db.tables, req.lastWeighbridge, req.items).value;
    HeadedKeepsLineages(req, sorted, db);
    SupersedeGroupsKeep(rt, |db.corrections|, sorted.groups, Headed(req, sorted, db));
  }

  lemma DataCorrectionKeepsStage(rt: Runtime, req: CorrectionRequest, db: Dossier)
    requires Lineages(db) && Staged(db) && Terminal(db.row.status) && CorrectRecords(rt, req, db).Ok?
    ensures var after := CorrectRecords(rt, req, db).value;
      Lineages(after) && Staged(after) && TablesExtend(after.tables, db.tables)
  {
    hide Lineages, TablesExtend, HasCurrent, SupersedeGroups, RowChanges, HasChanges, ChangesTaken, SortItems;
    CorrectionShape(rt, req, db);
    var after := CorrectRecords(rt, req, db).value;
    assert HasCurrent(after.tables.Get(InWeights)) <==> HasCurrent(db.tables.Get(InWeights));
  }

  /** A reopening clears exactly the tables of the stages after its target. */
  lemma ReopenClearsDownstream(to: Status, pt: ProcessType)
    requires to in ReopenTargets(pt)
    ensures Cleared(to) == LaterTables(to)
  {}

  lemma ClearedKeepsLineages(db: Dossier, cleared: set<TableId>)
    requires Lineages(db)
    ensures var c := |db.corrections|; var after := ClearedTables(db.tables, cleared, c);
      && LineagesOf(after, c + 1) && TablesExtend(after, db.tables)
      && forall t :: HasCurrent(after.Get(t)) <==> t !in cleared && HasCurrent(db.tables.Get(t))
  {
    var c := |db.corrections|;
    var after := ClearedTables(db.tables, cleared, c);
    forall t
      ensures Lineage(after.Get(t), c + 1) && Extends(after.Get(t), db.tables.Get(t))
      ensures HasCurrent(after.Get(t)) <==> t !in cleared && HasCurrent(db.tables.Get(t))
    {
      assert Lineage(db.tables.Get(t), c);
      if t in cleared {
        SupersedeKeepsLineage(db.tables.Get(t), c);
      }
    }
  }

  lemma ReopenKeepsStage(req: CorrectionRequest, target: Status, db: Dossier)
    requires Lineages(db) && Staged(db) && Reopen(req, target, db).Ok?
    ensures var after := Reopen(req, target, db).value;
      && Kept(db, after)
      && forall t :: HasCurrent(after.tables.Get(t)) <==>
          t !in LaterTables(EffectiveTarget(target)) && HasCurrent(db.tables.Get(t))
  {
    hide Lineage, LineagesOf, TablesExtend, HasCurrent, ClearedTables;
    var to := EffectiveTarget(target);
    ReopenClearsDownstream(to, db.row.processType);
    ClearedKeepsLineages(db, Cleared(to));
    var after := Reopen(req, target, db).value;
    assert HasCurrent(after.tables.Get(InWeights)) <==>
      InWeights !in Cleared(to) && HasCurrent(db.tables.Get(InWeights));
  }

  // ----- Runs -----

  /** Every accepted call keeps the stage invariant and the lineages, and no row already superseded ever changes. */
  lemma ApplyKeepsStage(rt: Runtime, req: Request, s: Dossier)
    requires Lineages(s) && Staged(s) && Apply(rt, req, s).Ok?
    ensures var after := Apply(rt, req, s).value;
      Lineages(after) && Staged(after) && TablesExtend(after.tables, s.tables)
  {
    match req
    case Move(f) => ForwardKeepsStage(f, s);
    case Correct(c) =>
      if c.action == ReopenWorkflow {
        ReopenKeepsStage(c, c.reopenTarget.value, s);
      } else {
        DataCorrectionKeepsStage(rt, c, s);
      }
  }

  lemma {:induction false} RunStaged(rt: Runtime, pt: ProcessType, info: map<Field, Json>, reqs: seq<Request>)
    ensures var s := Run(rt, NewDossier(pt, info), reqs); Lineages(s) && Staged(s)
  {
    hide Lineages, Staged, Apply;
    if reqs == [] {
      FreshStaged(pt, info);
    } else {
      var before := Run(rt, NewDossier(pt, info), reqs[..|reqs| - 1]);
      RunStaged(rt, pt, info, reqs[..|reqs| - 1]);
      if Apply(rt, reqs[|reqs| - 1], before).Ok? {
        ApplyKeepsStage(rt, reqs[|reqs| - 1], before);
      }
    }
  }

  lemma FreshStaged(pt: ProcessType, info: map<Field, Json>)
    ensures Lineages(NewDossier(pt, info)) && Staged(NewDossier(pt, info))
  {}

  /** Later states only extend earlier ones, whatever calls come between. */
  lemma {:induction false} RunExtends(rt: Runtime, pt: ProcessType, info: map<Field, Json>, reqs: seq<Request>, i: nat)
    requires i <= |reqs|
    ensures TablesExtend(Run(rt, NewDossier(pt, info), reqs).tables, Run(rt, NewDossier(pt, info), reqs[..i]).tables)
    decreases |reqs|
  {
    hide Lineages, Staged, Apply, TablesExtend;
    if i == |reqs| {
      assert reqs[..i] == reqs;
      ExtendsReflexive(Run(rt, NewDossier(pt, info), reqs).tables);
    } else {
      var init := reqs[..|reqs| - 1];
      var before := Run(rt, NewDossier(pt, info), init);
      assert init[..i] == reqs[..i];
      RunExtends(rt, pt, info, init, i);
      RunStaged(rt, pt, info, init);
      if Apply(rt, reqs[|reqs| - 1], before).Ok? {
        ApplyKeepsStage(rt, reqs[|reqs| - 1], before);
        ExtendsTransitive(Run(rt, NewDossier(pt, info), reqs[..i]).tables, before.tables,
          Run(rt, NewDossier(pt, info), reqs).tables);
      }
    }
  }

  /** The stage invariant and the lineages hold at every moment of every interleaving. */
  lemma InterleavingStaged(rt: Runtime, pt: ProcessType, info: map<Field, Json>, events: seq<Event>)
    ensures var s := Execute(rt, NewDossier(pt, info), events).db; Lineages(s) && Staged(s)
  {
    Serializable(rt, NewDossier(pt, info), events);
    RunStaged(rt, pt, info, Requests(Execute(rt, NewDossier(pt, info), events).log));
  }

  /** The process being worked on is the last of its lineage. */
  lemma OpenProcessIsLast(s: Dossier)
    requires Lineages(s) && Staged(s) && s.row.status == WarehouseInProgress
    ensures s.tables.warehousing != [] && ActiveAt(s.tables.warehousing) == Some(|s.tables.warehousing| - 1)
  {
    assert Lineage(s.tables.Get(Warehousing), |s.corrections|);
    ActiveIsLast(s.tables.warehousing, |s.corrections|);
  }

  // ----- Guards that can never fire -----

  /** Where the status lets a call through, no duplicate guard stops it, in either half. */
  lemma DuplicateGuardsNeverFire(f: Forward, s: Dossier)
    requires Staged(s)
    ensures ReadForward(f, s) == Some(DuplicateRecord) ==> f.StartWarehouse? && s.row.status == WarehouseInProgress
    ensures ReadForward(f, s).None? && f.WeighIn? ==> !HasCurrent(s.tables.inWeights)
    ensures ReadForward(f, s).None? && f.WeighOut? ==> !HasCurrent(s.tables.outWeights)
    ensures ReadForward(f, s).None? && f.SubmitVehicleCheck? ==> !HasCurrent(s.tables.vehicleChecks)
    ensures ReadForward(f, s).None? && (f.SubmitIncomingCheck? || f.SubmitIncomingAtWarehouse?) ==>
      !HasCurrent(s.tables.materialChecks)
    ensures ReadForward(f, s).None? && f.StartWarehouse? ==> !HasCurrent(s.tables.warehousing)
  {
    hide HasCurrent, KnownInWeight, VehicleVerdict;
    var later := LaterTables(s.row.status);
    assert InWeights in later ==> !HasCurrent(s.tables.Get(InWeights));
    assert OutWeights in later ==> !HasCurrent(s.tables.Get(OutWeights));
    assert VehicleChecks in later ==> !HasCurrent(s.tables.Get(VehicleChecks));
    assert MaterialChecks in later ==> !HasCurrent(s.tables.Get(MaterialChecks));
    assert Warehousing in later ==> !HasCurrent(s.tables.Get(Warehousing));
  }

  /** Completion always finds the active process, so the fallback that inserts one is dead code. */
  lemma FallbackProcessNeverInserted(
    weight: Option<real>, quantity: Option<real>, details: map<Field, Json>, now: int, s: Dossier)
    requires Lineages(s) && Staged(s) && ReadCompleteWarehouse(weight, quantity, s).None?
    ensures var r := CommitCompleteWarehouse(weight, quantity, details, now, s.row, s);
      && r.Ok?
      && |r.value.tables.warehousing| == |s.tables.warehousing| > 0
      && r.value.tables.warehousing[..|s.tables.warehousing| - 1] == s.tables.warehousing[..|s.tables.warehousing| - 1]
      && FieldOf(r.value.tables.warehousing[|s.tables.warehousing| - 1].fields, EndAt) == Date(now)
  {
    OpenProcessIsLast(s);
  }

  /** The fallback on the weighbridge record for a missing gross weight never supplies one. */
  lemma InWeightFallbackNeverNeeded(s: Dossier)
    requires Staged(s)
    ensures KnownInWeight(s) == InWeight(s.row)
  {}

  /**
   * The warehouse's rejection of goods still being unloaded is offered by its own status check and refused by the
   * status table.
   */
  lemma NoRejectionDuringUnloading(notes: Json, now: int, s: Dossier)
    requires s.row.status == WarehouseInProgress
    ensures ApplyForward(SubmitIncomingAtWarehouse(false, notes, now), s) ==
      Err(if Inbound(s.row.processType) then InvalidTransition else WrongProcessType)
  {}

  /** The client's guards are the server's status guards on every state a run reaches. */
  lemma ClientGuardsAgree(s: Dossier)
    requires Staged(s)
    ensures ClientCanWeighOut(s.row.status, s.row.processType) <==> WeighOutAllowed(s.row.processType, s.row.status)
    ensures ClientCanStartWarehouse(s.row.status, s.row.processType) <==> ReadStartWarehouse(s).None?
    ensures ClientCanCheckOut(s.row.status, s.row.processType) <==> ReadCheckOut(s).None?
  {}

  /** On a status no run reaches the two differ. */
  lemma ClientGuardsDifferOffReachableStates()
    ensures WeighOutAllowed(GBB, WarehouseDone) && !ClientCanWeighOut(WarehouseDone, GBB)
  {}
}
