/** The current warehouse process against the figures and times the row shows of it. */
module Unloading {
  import opened Prelude
  import opened Workflow
  import opened Records
  import opened Steps
  import opened Corrections
  import opened Protocol
  import opened Stages
  import opened Mirrors
  import opened Weights
  import opened Timeline
  import opened StatusHistory
  import opened Progress

  predicate OfWarehouse(k: Mirror) {
    k == WeightMirror || k == QuantityMirror || k == UnitMirror || k == StartMirror || k == EndMirror
  }

  /** Before the warehouse the row shows no unit; Timely says the same of the figures and times. */
  predicate NoUnitYet(row: Row) {
    BeforeWarehouse(row.status) ==> FieldOf(row.info, WarehouseUnit) == Null
  }

  // ----- Forward calls -----

  lemma StartAgrees(remarks: Json, now: int, s: Dossier, k: Mirror)
    requires Lineages(s) && Staged(s) && Timely(s.row) && NoUnitYet(s.row) && OfWarehouse(k)
    requires ReadStartWarehouse(s).None? && CommitStartWarehouse(remarks, now, s.row, s).Ok?
    ensures Agrees(CommitStartWarehouse(remarks, now, s.row, s).value, k)
  {
    hide Inserted, Lineages, TransitionAllowed, CurrentAt, HasCurrent;
    var fields := map[StartAt := Date(now), Remarks := remarks];
    InsertedNewest(s, Warehousing, fields);
    NewestRead(s, Inserted(s.tables.warehousing, fields), fields);
  }

  /** A newest current record is the one read. */
  lemma NewestRead(s: Dossier, vs: seq<Version>, fields: map<Field, Json>)
    requires NewestIs(vs, s.tables.warehousing) && vs[|vs| - 1].fields == fields
    ensures CurrentAt(vs) == Some(|vs| - 1)
  {}

  lemma LastRead(vs: seq<Version>)
    requires vs != [] && vs[|vs| - 1].isCurrent
    ensures CurrentAt(vs) == Some(|vs| - 1) && HasCurrent(vs)
  {}

  /** The process worked on is finished in place. */
  lemma CompletedTable(
    weight: Option<real>, quantity: Option<real>, details: map<Field, Json>, now: int, s: Dossier)
    requires Lineages(s) && Staged(s) && ReadCompleteWarehouse(weight, quantity, s).None?
    requires CommitCompleteWarehouse(weight, quantity, details, now, s.row, s).Ok?
    ensures var vs, last := s.tables.warehousing, |s.tables.warehousing| - 1;
      && vs != [] && vs[last].isCurrent
      && CommitCompleteWarehouse(weight, quantity, details, now, s.row, s).value.tables.warehousing ==
        vs[last := vs[last].(fields := vs[last].fields + Measured(weight, quantity, details, now))]
  {
    hide Lineages, LaterTables, TransitionAllowed, ActiveAt, Measured;
    OpenProcessIsLast(s);
  }

  /** What a completion sends for a column. */
  function Sent(
    weight: Option<real>, quantity: Option<real>, details: map<Field, Json>, now: int, k: Mirror): Option<Json>
  {
    match k
    case WeightMirror => if weight.Some? then Some(Num(weight.value)) else None
    case QuantityMirror => if quantity.Some? then Some(Num(quantity.value)) else None
    case UnitMirror => if Unit in details then Some(details[Unit]) else None
    case EndMirror => Some(Date(now))
    case _ => None
  }

  lemma MeasuredMirror(
    before: map<Field, Json>, weight: Option<real>, quantity: Option<real>, details: map<Field, Json>, now: int,
    k: Mirror)
    requires OfWarehouse(k)
    ensures var sent := Sent(weight, quantity, details, now, k);
      FieldOf(before + Measured(weight, quantity, details, now), FieldIn(k)) ==
        if sent.Some? then sent.value else FieldOf(before, FieldIn(k))
  {
    hide Measured;
    MeasuredExactly(weight, quantity, details, now);
  }

  lemma CompletedMirror(
    weight: Option<real>, quantity: Option<real>, details: map<Field, Json>, now: int, s: Dossier, k: Mirror)
    requires OfWarehouse(k) && Timely(s.row) && ReadCompleteWarehouse(weight, quantity, s).None?
    requires CommitCompleteWarehouse(weight, quantity, details, now, s.row, s).Ok?
    ensures var sent := Sent(weight, quantity, details, now, k);
      RowValue(CommitCompleteWarehouse(weight, quantity, details, now, s.row, s).value.row, k) ==
        if sent.Some? then sent.value else RowValue(s.row, k)
  {
    hide FinishedProcess, Measured, TransitionAllowed;
  }

  lemma CompleteAgrees(
    weight: Option<real>, quantity: Option<real>, details: map<Field, Json>, now: int, s: Dossier, k: Mirror)
    requires Lineages(s) && Staged(s) && Timely(s.row) && Agrees(s, k) && OfWarehouse(k)
    requires ReadCompleteWarehouse(weight, quantity, s).None?
    requires CommitCompleteWarehouse(weight, quantity, details, now, s.row, s).Ok?
    ensures Agrees(CommitCompleteWarehouse(weight, quantity, details, now, s.row, s).value, k)
  {
    hide CommitCompleteWarehouse, ReadCompleteWarehouse, Lineages, Staged, Timely, CurrentAt, HasCurrent, Measured,
         Sent, RowValue, FieldIn;
    CompletedTable(weight, quantity, details, now, s);
    LastRead(s.tables.warehousing);
    LastRead(CommitCompleteWarehouse(weight, quantity, details, now, s.row, s).value.tables.warehousing);
    MeasuredMirror(s.tables.warehousing[|s.tables.warehousing| - 1].fields, weight, quantity, details, now, k);
    CompletedMirror(weight, quantity, details, now, s, k);
  }

  lemma MeasuredExactly(weight: Option<real>, quantity: Option<real>, details: map<Field, Json>, now: int)
    ensures var m := Measured(weight, quantity, details, now);
      && (ActualWeight in m <==> weight.Some?) && (weight.Some? ==> m[ActualWeight] == Num(weight.value))
      && (ActualQuantity in m <==> quantity.Some?) && (quantity.Some? ==> m[ActualQuantity] == Num(quantity.value))
      && (Unit in m <==> Unit in details) && (Unit in details ==> m[Unit] == details[Unit])
      && StartAt !in m && EndAt in m && m[EndAt] == Date(now)
  {}

  /** What the row shows of a process. */
  predicate SameProcess(a: Dossier, b: Dossier) {
    && a.tables.warehousing == b.tables.warehousing
    && a.row.actualWeight == b.row.actualWeight && a.row.actualQuantity == b.row.actualQuantity
    && a.row.warehouseStartAt == b.row.warehouseStartAt && a.row.warehouseEndAt == b.row.warehouseEndAt
    && FieldOf(a.row.info, WarehouseUnit) == FieldOf(b.row.info, WarehouseUnit)
  }

  lemma SameAgrees(a: Dossier, b: Dossier, k: Mirror)
    requires SameProcess(a, b) && OfWarehouse(k)
    ensures Agrees(a, k) <==> Agrees(b, k)
  {
    hide HasCurrent, CurrentAt;
  }

  lemma AnnotatedTable(note: string, now: int, s: Dossier)
    requires Lineages(s) && Staged(s) && s.row.status == WarehouseInProgress
    ensures var vs, last := s.tables.warehousing, |s.tables.warehousing| - 1;
      && vs != [] && vs[last].isCurrent
      && Annotated(vs, note) == vs[last := vs[last].(fields := vs[last].fields[Remarks := Text(note)])]
  {
    hide Lineages, LaterTables, ActiveAt;
    OpenProcessIsLast(s);
  }

  lemma AnalysisAgrees(note: Option<string>, now: int, s: Dossier, k: Mirror)
    requires Lineages(s) && Staged(s) && Agrees(s, k) && OfWarehouse(k)
    requires ReadCompleteAnalysis(s).None? && CommitCompleteAnalysis(note, now, s.row, s).Ok?
    ensures Agrees(CommitCompleteAnalysis(note, now, s.row, s).value, k)
  {
    hide Lineages, Staged, Annotated, CurrentAt, HasCurrent, RowValue, SameProcess;
    var after := CommitCompleteAnalysis(note, now, s.row, s).value;
    AnalysisRow(note, now, s, k);
    if note.Some? {
      AnnotatedTable(note.value, now, s);
      LastRead(s.tables.warehousing);
      LastRead(after.tables.warehousing);
    }
  }

  lemma AnalysisRow(note: Option<string>, now: int, s: Dossier, k: Mirror)
    requires OfWarehouse(k) && CommitCompleteAnalysis(note, now, s.row, s).Ok?
    ensures RowValue(CommitCompleteAnalysis(note, now, s.row, s).value.row, k) == RowValue(s.row, k)
  {
    hide Annotated;
  }

  /** Every other forward call leaves the processes and what the row shows of them alone. */
  lemma OthersLeaveProcess(f: Forward, s: Dossier)
    requires ApplyForward(f, s).Ok? && !f.StartWarehouse? && !f.CompleteWarehouse? && !f.CompleteAnalysis?
    ensures SameProcess(ApplyForward(f, s).value, s)
  {
    hide HasCurrent, CurrentAt, Inserted, VehicleRecord, VehicleVerdict, KnownInWeight, Assess, TransitionAllowed;
  }

  lemma ForwardAgrees(f: Forward, s: Dossier, k: Mirror)
    requires Lineages(s) && Staged(s) && Timely(s.row) && NoUnitYet(s.row)
    requires Agrees(s, k) && OfWarehouse(k) && ApplyForward(f, s).Ok?
    ensures Agrees(ApplyForward(f, s).value, k)
  {
    hide Lineages, Staged, Timely, NoUnitYet, Agrees;
    match f
    case StartWarehouse(remarks, now) => StartAgrees(remarks, now, s, k);
    case CompleteWarehouse(weight, quantity, details, now) => CompleteAgrees(weight, quantity, details, now, s, k);
    case CompleteAnalysis(note, now) => AnalysisAgrees(note, now, s, k);
    case _ =>
      OthersLeaveProcess(f, s);
      SameAgrees(ApplyForward(f, s).value, s, k);
  }

  lemma ForwardKeepsNoUnit(f: Forward, s: Dossier)
    requires Staged(s) && NoUnitYet(s.row) && ApplyForward(f, s).Ok?
    ensures NoUnitYet(ApplyForward(f, s).value.row)
  {
    hide OptDate, OptNum, HasCurrent, CurrentAt, Inserted, VehicleRecord, VehicleVerdict, KnownInWeight, Assess,
         FinishedProcess, Annotated, Measured, LaterTables, ActiveAt;
  }

  // ----- Reopening -----

  lemma ReopenLeavesProcess(req: CorrectionRequest, target: Status, s: Dossier)
    requires Reopen(req, target, s).Ok? && Warehousing !in LaterTables(EffectiveTarget(target))
    ensures SameProcess(Reopen(req, target, s).value, s)
  {
    hide ClearedTables, FraudAfter, GrossUnderTare, StartsAfterEnd;
    ReopenClearsDownstream(EffectiveTarget(target), s.row.processType);
    assert Reopen(req, target, s).value.tables.Get(Warehousing) == s.tables.Get(Warehousing);
  }

  lemma ReopenAgrees(req: CorrectionRequest, target: Status, s: Dossier, k: Mirror)
    requires Lineages(s) && Staged(s) && Agrees(s, k) && OfWarehouse(k) && Reopen(req, target, s).Ok?
    ensures Agrees(Reopen(req, target, s).value, k)
  {
    hide Reopen, HasCurrent, Lineages, Staged, CurrentAt, SameProcess, RowValue;
    ReopenKeepsStage(req, target, s);
    var after := Reopen(req, target, s).value;
    assert HasCurrent(after.tables.Get(Warehousing)) <==>
      Warehousing !in LaterTables(EffectiveTarget(target)) && HasCurrent(s.tables.Get(Warehousing));
    if Warehousing !in LaterTables(EffectiveTarget(target)) {
      ReopenLeavesProcess(req, target, s);
      SameAgrees(after, s, k);
    }
  }

  // ----- Runs -----

  /** If the call is a data correction that goes through, it keeps the mirrored column. */
  predicate Spares(rt: Runtime, req: Request, s: Dossier, k: Mirror) {
    req.Correct? && req.correction.action != ReopenWorkflow && Apply(rt, req, s).Ok? ==>
      KeepsMirror(req.correction, s, k)
  }

  ghost predicate Tracked(s: Dossier) {
    Lineages(s) && Staged(s) && Timely(s.row) && NoUnitYet(s.row)
  }

  /** The next call keeps process and row in agreement exactly when it spares the column. */
  lemma AfterAgreesIff(rt: Runtime, req: Request, s: Dossier, k: Mirror)
    requires Tracked(s) && Agrees(s, k) && OfWarehouse(k)
    ensures Agrees(After(rt, s, req), k) <==> Spares(rt, req, s, k)
  {
    hide Lineages, Staged, Timely, NoUnitYet, Agrees, KeepsMirror, ReadForward, CommitForward, CorrectRecords, Reopen;
    if Apply(rt, req, s).Ok? {
      match req
      case Move(f) => ForwardAgrees(f, s, k);
      case Correct(c) =>
        if c.action == ReopenWorkflow {
          ReopenAgrees(c, c.reopenTarget.value, s, k);
        } else {
          MirrorKeptIff(rt, c, s, k);
        }
    }
  }

  lemma TerminalHasUnit(rt: Runtime, c: CorrectionRequest, s: Dossier)
    requires Terminal(s.row.status) && CorrectRecords(rt, c, s).Ok?
    ensures NoUnitYet(CorrectRecords(rt, c, s).value.row)
  {
    DataCorrectionKeepsStatus(rt, c, s);
  }

  lemma {:induction false} RunTracked(rt: Runtime, pt: ProcessType, info: map<Field, Json>, reqs: seq<Request>)
    ensures Tracked(Run(rt, NewDossier(pt, info), reqs))
  {
    hide Lineages, Staged, Timely, NoUnitYet, ReadForward, CommitForward, CorrectRecords, Reopen;
    RunStaged(rt, pt, info, reqs);
    RunTimely(rt, pt, info, reqs);
    if reqs == [] {
      FreshNoUnit(pt, info);
    } else {
      var init, req := reqs[..|reqs| - 1], reqs[|reqs| - 1];
      var before := Run(rt, NewDossier(pt, info), init);
      RunTracked(rt, pt, info, init);
      if Apply(rt, req, before).Ok? {
        match req
        case Move(f) => ForwardKeepsNoUnit(f, before);
        case Correct(c) =>
          if c.action == ReopenWorkflow {
            ReopenNoUnit(c, c.reopenTarget.value, before);
          } else {
            TerminalHasUnit(rt, c, before);
          }
      }
    }
  }

  lemma FreshNoUnit(pt: ProcessType, info: map<Field, Json>)
    ensures NoUnitYet(NewDossier(pt, info).row)
  {}

  lemma ReopenNoUnit(req: CorrectionRequest, target: Status, s: Dossier)
    requires Reopen(req, target, s).Ok?
    ensures NoUnitYet(Reopen(req, target, s).value.row)
  {
    hide ClearedTables, FraudAfter, GrossUnderTare, StartsAfterEnd;
  }

  /**
   * In every run whose data corrections spare the column, the current warehouse process and the row say the same of it,
   * through start, completion, corrections and reopenings.
   */
  lemma {:induction false} RunAgrees(
    rt: Runtime, pt: ProcessType, info: map<Field, Json>, reqs: seq<Request>, k: Mirror)
    requires OfWarehouse(k)
    requires forall i :: 0 <= i < |reqs| ==> Spares(rt, reqs[i], Run(rt, NewDossier(pt, info), reqs[..i]), k)
    ensures Agrees(Run(rt, NewDossier(pt, info), reqs), k)
  {
    hide Tracked, Agrees, Spares, After, OfWarehouse;
    if reqs == [] {
      FreshAgrees(pt, info, k);
    } else {
      var init := reqs[..|reqs| - 1];
      forall i | 0 <= i < |init| ensures Spares(rt, init[i], Run(rt, NewDossier(pt, info), init[..i]), k) {
        assert init[..i] == reqs[..i] && Spares(rt, reqs[i], Run(rt, NewDossier(pt, info), reqs[..i]), k);
      }
      RunAgrees(rt, pt, info, init, k);
      RunTracked(rt, pt, info, init);
      assert Spares(rt, reqs[|reqs| - 1], Run(rt, NewDossier(pt, info), reqs[..|reqs| - 1]), k);
      AfterAgreesIff(rt, reqs[|reqs| - 1], Run(rt, NewDossier(pt, info), init), k);
    }
  }

  lemma FreshAgrees(pt: ProcessType, info: map<Field, Json>, k: Mirror)
    requires OfWarehouse(k)
    ensures Agrees(NewDossier(pt, info), k)
  {}

  /** No item on the row itself can write the unit or a time of the process. */
  lemma {:induction false} NoRootOnProcess(rt: Runtime, tables: Tables, last: TableId, items: seq<Item>, f: Field)
    requires SortItems(rt, tables, last, items).Ok? && f in {WarehouseUnit, WarehouseStartAt, WarehouseEndAt}
    ensures LastRootOn(items, f).None?
  {
    hide SortItem;
    if items != [] {
      NoRootOnProcess(rt, tables, last, items[..|items| - 1], f);
      RootAllowed(rt, tables, last, SortItems(rt, tables, last, items[..|items| - 1]).value, items[|items| - 1], f);
    }
  }

  lemma RootAllowed(rt: Runtime, tables: Tables, last: TableId, acc: Sorted, it: Item, f: Field)
    requires SortItem(rt, tables, last, acc, it).Ok? && f in {WarehouseUnit, WarehouseStartAt, WarehouseEndAt}
    ensures !(IsRoot(it.targetModule) && it.field == f)
  {
    hide TargetRef, DomainValid, Normalized;
  }

  lemma ProcessSpared(rt: Runtime, req: Request, s: Dossier, k: Mirror)
    requires k == UnitMirror || k == StartMirror || k == EndMirror
    ensures Spares(rt, req, s, k)
  {
    hide CorrectRecords, LastEdit, LastRootOn, RecordValue, HasCurrent, Reopen, ReadForward, CommitForward;
    if req.Correct? && req.correction.action != ReopenWorkflow && Apply(rt, req, s).Ok? {
      SortedOk(rt, req.correction, s);
      NoRootOnProcess(rt, s.tables, req.correction.lastWeighbridge, req.correction.items,
        ColumnOn(s.row.processType, k));
    }
  }

  /** In every run at all the current process and the row agree on the unit, the start and the end. */
  lemma RunProcessAgrees(rt: Runtime, pt: ProcessType, info: map<Field, Json>, reqs: seq<Request>, k: Mirror)
    requires k == UnitMirror || k == StartMirror || k == EndMirror
    ensures Agrees(Run(rt, NewDossier(pt, info), reqs), k)
  {
    hide Agrees, Spares, Run;
    forall i | 0 <= i < |reqs| ensures Spares(rt, reqs[i], Run(rt, NewDossier(pt, info), reqs[..i]), k) {
      ProcessSpared(rt, reqs[i], Run(rt, NewDossier(pt, info), reqs[..i]), k);
    }
    RunAgrees(rt, pt, info, reqs, k);
  }

  // ----- A run that loses the agreement -----

  const UNLOADING: seq<Request> := WEIGHTLESS[..3] + [Move(Cancel("", 0))]

  function OverwriteQuantity(revision: int): CorrectionRequest {
    CorrectionRequest(CorrectData, None, revision, [Item(TransactionModule, None, ActualQuantity, Num(2.0))], InWeights)
  }

  /** Cancelled while the truck is unloaded: a process without figures, and none on the row. */
  ghost predicate Unloaded(s: Dossier) {
    && Tracked(s) && HasCurrent(s.tables.warehousing) && s.row.actualQuantity.None?
    && s.row.status == Cancelled && !GrossUnderTare(s.row) && s.row.warehouseEndAt.None?
  }

  lemma UnloadingCancelled(rt: Runtime)
    ensures Unloaded(Run(rt, NewDossier(GBB, map[]), UNLOADING))
  {
    hide Lineages, Timely, NoUnitYet, After, Run, HasCurrent;
    var s := Run(rt, NewDossier(GBB, map[]), WEIGHTLESS[..3]);
    WeightlessUnloading(rt);
    RunTracked(rt, GBB, map[], WEIGHTLESS[..3]);
    RunTracked(rt, GBB, map[], UNLOADING);
    RunOpenWeights(rt, GBB, map[], WEIGHTLESS[..3]);
    RunSnoc(rt, NewDossier(GBB, map[]), WEIGHTLESS[..3], Move(Cancel("", 0)));
    CancelledRow(rt, s);
    ActiveHas(s.tables.warehousing);
    NothingShown(s);
  }

  lemma ActiveHas(vs: seq<Version>)
    requires ActiveAt(vs).Some?
    ensures HasCurrent(vs)
  {}

  lemma NothingShown(s: Dossier)
    requires Timely(s.row) && Staged(s) && s.row.status == WarehouseInProgress
    ensures s.row.actualQuantity.None? && s.row.warehouseEndAt.None?
  {}

  lemma QuantityAllowed(rt: Runtime, it: Item)
    requires it == Item(TransactionModule, None, ActualQuantity, Num(2.0))
    ensures it.field in Allowlist(it.targetModule) && DomainValid(rt, it.field, it.newValue) && Normalized(it) == it
  {
    assert 2.0 == (2.0).Floor as real;
  }

  lemma QuantityAccepted(rt: Runtime, s: Dossier)
    requires Unloaded(s) && rt.stringify(Null) != rt.stringify(Num(2.0))
    ensures CorrectRecords(rt, OverwriteQuantity(s.row.revision), s).Ok?
  {
    hide SortItems, RowChanges, FraudAfter, StoredRoots, WithNet, Headed, Allowlist, DomainValid, Normalized, Tracked,
         HasCurrent;
    var it := OverwriteQuantity(s.row.revision).items[0];
    QuantityAllowed(rt, it);
    RootSorted(rt, s.row.processType, s.tables, InWeights, it);
    assert RootChanged(rt, s.row, it);
    assert HasChanges(rt, s.row, Sorted([it], []));
  }

  /** The request says nothing of the process. */
  lemma QuantityNotKept(s: Dossier)
    requires Unloaded(s) && Agrees(s, QuantityMirror)
    ensures !KeepsMirror(OverwriteQuantity(s.row.revision), s, QuantityMirror)
  {
    hide HasCurrent, CurrentAt, Tracked, TargetRef;
    var items := OverwriteQuantity(s.row.revision).items;
    assert RowValue(s.row, QuantityMirror) == Null;
    assert LastRootOn(items, ActualQuantity) == Some(Num(2.0));
    RootHasNoRecord(s.tables, items[0], InWeights);
    assert items[..0] == [];
    assert LastEditOn(s.tables, InWeights, items, Warehousing, ActualQuantity).None?;
    assert RecordValue(s.tables, QuantityMirror) == Null;
  }

  /** Cancelled while unloading, and the quantity on the row written to 2: the process still has none. */
  lemma OverwriteLosesTheProcess(rt: Runtime)
    requires rt.stringify(Null) != rt.stringify(Num(2.0))
    ensures var s := Run(rt, NewDossier(GBB, map[]), UNLOADING);
      && Agrees(s, QuantityMirror)
      && Apply(rt, Correct(OverwriteQuantity(s.row.revision)), s).Ok?
      && !Agrees(After(rt, s, Correct(OverwriteQuantity(s.row.revision))), QuantityMirror)
  {
    hide CorrectRecords, Run, Agrees, KeepsMirror, Tracked, HasCurrent;
    var s := Run(rt, NewDossier(GBB, map[]), UNLOADING);
    UnloadingCancelled(rt);
    UnloadingAgrees(rt);
    QuantityAccepted(rt, s);
    QuantityNotKept(s);
    AfterAgreesIff(rt, Correct(OverwriteQuantity(s.row.revision)), s, QuantityMirror);
  }

  lemma UnloadingAgrees(rt: Runtime)
    ensures Agrees(Run(rt, NewDossier(GBB, map[]), UNLOADING), QuantityMirror)
  {
    hide Run, Agrees, Apply;
    RunAgrees(rt, GBB, map[], UNLOADING, QuantityMirror);
  }
}
