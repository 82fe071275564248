/** What a correction request must say to be accepted, and what an accepted one leaves on the row and its records. */
module Amendments {
  import opened Prelude
  import opened Workflow
  import opened Records
  import opened Steps
  import opened Corrections
  import opened Stages
  import opened Mirrors
  import opened StatusHistory

  /** A reopening names its target and nothing else; a data correction names items, none of them with a null value. */
  lemma RequestWellFormed(req: CorrectionRequest)
    ensures ReadCorrection(req).None? <==>
      || (req.action == ReopenWorkflow && req.reopenTarget.Some? && req.items == [])
      || ((req.action == CorrectData || req.action == NoAction) && req.reopenTarget.None? && req.items != []
          && forall i :: 0 <= i < |req.items| ==> req.items[i].newValue != Null)
  {}

  /**
   * Whatever a data correction writes, it is made on a finished transaction, at the revision quoted, and keeps order.
   */
  lemma DataCorrectionOrder(rt: Runtime, req: CorrectionRequest, s: Dossier)
    requires ReadCorrection(req).None? && req.action != ReopenWorkflow && CommitCorrection(rt, req, s).Ok?
    ensures s.row.status == Completed || s.row.status == Cancelled
    ensures s.row.revision == req.expectedRevision
    ensures var row := CommitCorrection(rt, req, s).value.row;
      && row.status == s.row.status
      && (row.grossWeight.Some? && row.tareWeight.Some? ==> row.grossWeight.value >= row.tareWeight.value)
      && (row.warehouseStartAt.Some? && row.warehouseEndAt.Some? ==>
          row.warehouseStartAt.value <= row.warehouseEndAt.value)
      && CommitCorrection(rt, req, s).value.corrections == s.corrections + [Correction(false, req.expectedRevision)]
  {
    hide SortItems, SupersedeGroups, RowChanges, HasChanges, ChangesTaken, ChangedRow;
    DataCorrectionKeepsStatus(rt, req, s);
    SupersedingLeaves(rt, |s.corrections|, SortedOf(rt, req, s).groups, Headed(req, SortedOf(rt, req, s), s));
  }

  lemma {:induction false} SupersedingLeaves(rt: Runtime, c: nat, groups: seq<Group>, db: Dossier)
    requires SupersedeGroups(rt, c, groups, db).Ok?
    ensures SupersedeGroups(rt, c, groups, db).value.corrections == db.corrections
  {
    hide RecordTaken, Edited, StoredGroup, Restrict, CopiedColumns;
    if groups != [] {
      SupersedingLeaves(rt, c, groups[..|groups| - 1], db);
    }
  }

  // ----- The items of an accepted request -----

  /** A weight is positive, a percentage is one, a count is whole and not negative, a time is a time; never a status. */
  predicate Sensible(rt: Runtime, f: Field, v: Json) {
    var n := ToNumber(rt, v);
    && (f == GrossWeight || f == TareWeight || f == ActualWeight || f == SampleWeight || f == Weight ==>
        n.Some? && n.value > 0.0)
    && (f == Moisture || f == ForeignMatter || f == GoodBeanPercentage ==> n.Some? && 0.0 <= n.value <= 100.0)
    && (f == ActualQuantity || f == PalletCount || f == BagCount || f == RollCount ==>
        n.Some? && n.value >= 0.0 && n.value == n.value.Floor as real)
    && (f == StartAt || f == EndAt ==> rt.date(v).Some?)
    && f != StatusColumn
  }

  lemma ValidIsSensible(rt: Runtime, f: Field, v: Json)
    requires DomainValid(rt, f, v)
    ensures Sensible(rt, f, v)
  {
    hide ToNumber;
  }

  lemma SensibleIsValid(rt: Runtime, f: Field, v: Json)
    requires Sensible(rt, f, v)
    ensures DomainValid(rt, f, v)
  {
    hide ToNumber;
  }

  lemma {:induction false} SortedItemsValid(
    rt: Runtime, tables: Tables, last: TableId, items: seq<Item>, i: nat)
    requires SortItems(rt, tables, last, items).Ok? && i < |items|
    ensures items[i].field in Allowlist(items[i].targetModule) && DomainValid(rt, items[i].field, items[i].newValue)
  {
    hide Grouped, Allowlist, DomainValid, TargetRef, Normalized;
    if i < |items| - 1 {
      SortedItemsValid(rt, tables, last, items[..|items| - 1], i);
    }
  }

  /** An item in a group of its record. */
  ghost predicate InGroup(groups: seq<Group>, r: Ref, it: Item) {
    exists k, j :: 0 <= k < |groups| && 0 <= j < |groups[k].items| && groups[k].ref == r && groups[k].items[j] == it
  }

  lemma GroupedIn(groups: seq<Group>, m: TargetModule, r: Ref, rec: Version, it: Item)
    ensures InGroup(Grouped(groups, m, r, rec, it), r, it)
    ensures forall q, x :: InGroup(groups, q, x) ==> InGroup(Grouped(groups, m, r, rec, it), q, x)
  {
    var after, at := Grouped(groups, m, r, rec, it), FindGroup(groups, m, r);
    var k := if at.Some? then at.value else |groups|;
    assert after[k].ref == r && after[k].items[|after[k].items| - 1] == it;
    forall q, x | InGroup(groups, q, x) ensures InGroup(after, q, x) {
      var w, j :|
        0 <= w < |groups| && 0 <= j < |groups[w].items| && groups[w].ref == q && groups[w].items[j] == x;
      assert after[w].ref == q && after[w].items[j] == x;
    }
  }

  lemma {:induction false} SortedInGroup(rt: Runtime, tables: Tables, last: TableId, items: seq<Item>, i: nat)
    requires SortItems(rt, tables, last, items).Ok? && i < |items| && !IsRoot(items[i].targetModule)
    ensures TargetRef(tables, items[i], last).Some?
    ensures InGroup(SortItems(rt, tables, last, items).value.groups,
      TargetRef(tables, items[i], last).value, Normalized(items[i]))
  {
    hide SortItem, Grouped, InGroup, TargetRef, Normalized, IsRoot;
    var init, raw := items[..|items| - 1], items[|items| - 1];
    var acc := SortItems(rt, tables, last, init).value;
    SortedItemGroups(rt, tables, last, acc, raw);
    if !IsRoot(raw.targetModule) {
      var r := TargetRef(tables, raw, last).value;
      GroupedIn(acc.groups, raw.targetModule, r, tables.Get(r.table)[r.index], Normalized(raw));
    }
    if i < |items| - 1 {
      SortedInGroup(rt, tables, last, init, i);
    }
  }

  lemma {:induction false} GroupsTaken(rt: Runtime, c: nat, groups: seq<Group>, db: Dossier, k: nat)
    requires SupersedeGroups(rt, c, groups, db).Ok? && k < |groups|
    ensures RecordTaken(rt, groups[k].ref.table, groups[k].items)
  {
    hide RecordTaken, Edited, StoredGroup, Restrict, CopiedColumns;
    if k < |groups| - 1 {
      GroupsTaken(rt, c, groups[..|groups| - 1], db, k);
    }
  }

  /**
   * Every item of an accepted request names a column its module may correct, with a sensible value; one on a record
   * names a current record, and the database takes what it stores.
   */
  lemma AcceptedItem(rt: Runtime, req: CorrectionRequest, s: Dossier, i: nat)
    requires CorrectRecords(rt, req, s).Ok? && i < |req.items|
    ensures var it := req.items[i];
      && it.field in Allowlist(it.targetModule) && Sensible(rt, it.field, it.newValue)
      && (!IsRoot(it.targetModule) ==>
          && TargetRef(s.tables, it, req.lastWeighbridge).Some?
          && var r := TargetRef(s.tables, it, req.lastWeighbridge).value;
          && IsCurrentRef(s.tables, r)
          && rt.accepts(it.field, Coerced(rt, r.table, it.field, Normalized(it).newValue)))
  {
    hide SortItems, RowChanges, HasChanges, ChangesTaken, ChangedRow, GrossUnderTare, StartsAfterEnd, Allowlist,
         DomainValid, Sensible, TargetRef, Normalized, Coerced, SupersedeGroups, IsRoot;
    var sorted := SortedOf(rt, req, s);
    var it := req.items[i];
    SortedItemsValid(rt, s.tables, req.lastWeighbridge, req.items, i);
    ValidIsSensible(rt, it.field, it.newValue);
    if !IsRoot(it.targetModule) {
      SortedInGroup(rt, s.tables, req.lastWeighbridge, req.items, i);
      NormalizedTarget(s.tables, it, req.lastWeighbridge);
      var r := TargetRef(s.tables, it, req.lastWeighbridge).value;
      var k, j :| 0 <= k < |sorted.groups| && 0 <= j < |sorted.groups[k].items|
        && sorted.groups[k].ref == r && sorted.groups[k].items[j] == Normalized(it);
      GroupsTaken(rt, |s.corrections|, sorted.groups, Headed(req, sorted, s), k);
    }
  }

  /** An item that names no weighbridge record means the one listed last when two are current, else the only one. */
  lemma UnnamedRecord(tables: Tables, it: Item, last: TableId)
    requires it.targetModule == WeighbridgeModule && it.target.None? && (last == InWeights || last == OutWeights)
    ensures var r := TargetRef(tables, it, last);
      && (HasCurrent(tables.inWeights) && HasCurrent(tables.outWeights) ==> r.Some? && r.value.table == last)
      && (HasCurrent(tables.inWeights) && !HasCurrent(tables.outWeights) ==> r.Some? && r.value.table == InWeights)
      && (!HasCurrent(tables.inWeights) && HasCurrent(tables.outWeights) ==> r.Some? && r.value.table == OutWeights)
  {}

  /** Both words of a verdict are known in any case, and the stored one stands for itself. */
  lemma VerdictStable(it: Item)
    requires it.field == CheckOutcome && it.newValue.Text?
    ensures Normalized(Normalized(it)) == Normalized(it)
    ensures ToUpper(it.newValue.s) in ["APPROVED", "PASS", "APPROVED_WITH_NOTE"] ==>
      Normalized(it).newValue == Text("PASS")
    ensures ToUpper(it.newValue.s) in ["REJECTED", "REJECT"] ==> Normalized(it).newValue == Text("REJECT")
  {
    assert ToUpper("PASS") == "PASS" && ToUpper("REJECT") == "REJECT";
  }

  /** A record keeps, besides its times, exactly the columns its module may correct. */
  lemma AllowlistIsCopied()
    ensures CopiedColumns(InWeights) == CopiedColumns(OutWeights) == Allowlist(WeighbridgeModule)
    ensures CopiedColumns(VehicleChecks) == Allowlist(VehicleModule) + {StartedAt, CompletedAt}
    ensures CopiedColumns(MaterialChecks) == Allowlist(QcMaterialModule) + {StartedAt, CompletedAt}
    ensures Allowlist(IncomingMaterialModule) == Allowlist(QcMaterialModule)
    ensures CopiedColumns(Warehousing) == Allowlist(WarehouseModule)
  {}

  /** The items on the row may write its measurements and its descriptive columns, but for the unit. */
  lemma RowAllowlist()
    ensures Allowlist(TransactionModule) + {CancellationReason, WarehouseUnit} ==
      INFO_COLUMNS + {GrossWeight, TareWeight, ActualWeight, ActualQuantity}
    ensures Allowlist(RemarkModule) * INFO_COLUMNS == {Remarks, CancellationReason}
  {}

  // ----- Descriptive columns of the row -----

  predicate Descriptive(f: Field) {
    f in INFO_COLUMNS && f != WarehouseUnit
  }

  lemma WeighingLeaves(rt: Runtime, pt: ProcessType, t: TableId, changes: map<Field, Json>, it: Item, f: Field)
    requires f != GrossWeight && f != TareWeight && t != Warehousing
    ensures Writes(ItemChanges(rt, pt, t, changes, it), changes, f, None)
  {
    hide AsNumber, AsDate;
  }

  lemma ProcessLeaves(rt: Runtime, pt: ProcessType, changes: map<Field, Json>, it: Item, f: Field)
    requires f != ActualWeight && f != ActualQuantity
    requires f != WarehouseUnit && f != WarehouseStartAt && f != WarehouseEndAt
    ensures Writes(ItemChanges(rt, pt, Warehousing, changes, it), changes, f, None)
  {
    hide AsNumber, AsDate;
  }

  lemma ItemLeaves(rt: Runtime, pt: ProcessType, t: TableId, changes: map<Field, Json>, it: Item, f: Field)
    requires Descriptive(f)
    ensures Writes(ItemChanges(rt, pt, t, changes, it), changes, f, None)
  {
    hide ItemChanges, Descriptive, Writes;
    NotDescriptive(f);
    if t == Warehousing {
      ProcessLeaves(rt, pt, changes, it, f);
    } else {
      WeighingLeaves(rt, pt, t, changes, it, f);
    }
  }

  lemma NotDescriptive(f: Field)
    requires Descriptive(f)
    ensures f != GrossWeight && f != TareWeight && f != ActualWeight && f != ActualQuantity
    ensures f != WarehouseUnit && f != WarehouseStartAt && f != WarehouseEndAt
  {}

  lemma {:induction false} RecordLeaves(
    rt: Runtime, pt: ProcessType, t: TableId, changes: map<Field, Json>, items: seq<Item>, f: Field)
    requires Descriptive(f)
    ensures Writes(RecordChanges(rt, pt, t, changes, items), changes, f, None)
  {
    hide ItemChanges, Descriptive;
    if items != [] {
      var init := items[..|items| - 1];
      RecordLeaves(rt, pt, t, changes, init, f);
      ItemLeaves(rt, pt, t, RecordChanges(rt, pt, t, changes, init), items[|items| - 1], f);
    }
  }

  lemma {:induction false} GroupsLeave(
    rt: Runtime, pt: ProcessType, changes: map<Field, Json>, groups: seq<Group>, f: Field)
    requires Descriptive(f)
    ensures Writes(GroupChanges(rt, pt, changes, groups), changes, f, None)
  {
    hide RecordChanges, Descriptive;
    if groups != [] {
      var init, g := groups[..|groups| - 1], groups[|groups| - 1];
      GroupsLeave(rt, pt, changes, init, f);
      RecordLeaves(rt, pt, g.ref.table, GroupChanges(rt, pt, changes, init), g.items, f);
    }
  }

  lemma TakesDescriptive(rt: Runtime, f: Field, v: Json)
    requires Descriptive(f) && ColumnTakes(rt, f, v)
    ensures rt.accepts(f, v)
  {}

  lemma InfoKept(row: Row, changes: map<Field, Json>, f: Field)
    requires Descriptive(f)
    ensures FieldOf(ChangedRow(row, changes).info, f) == if f in changes then changes[f] else FieldOf(row.info, f)
  {
    assert f in INFO_COLUMNS;
    hide Descriptive, NumberIn, DateIn;
  }

  lemma InfoTaken(rt: Runtime, row: Row, changes: map<Field, Json>, f: Field)
    requires ChangesTaken(rt, changes) && Descriptive(f)
    ensures FieldOf(WithNet(ChangedRow(row, changes)).info, f) ==
      if f in changes then changes[f] else FieldOf(row.info, f)
    ensures f in changes ==> rt.accepts(f, changes[f])
  {
    hide Descriptive, ChangedRow, FieldOf, ColumnTakes;
    InfoKept(row, changes, f);
    if f in changes {
      assert ColumnTakes(rt, f, changes[f]);
      TakesDescriptive(rt, f, changes[f]);
    }
  }

  /** A descriptive column takes what the last item on it sends, which the database accepts, and else stays. */
  lemma CorrectedInfo(rt: Runtime, req: CorrectionRequest, s: Dossier, f: Field)
    requires CorrectRecords(rt, req, s).Ok? && Descriptive(f)
    ensures var root := LastRootOn(req.items, f);
      && FieldOf(CorrectRecords(rt, req, s).value.row.info, f) ==
        (if root.Some? then root.value else FieldOf(s.row.info, f))
      && (root.Some? ==> rt.accepts(f, root.value))
  {
    hide SortItems, SupersedeGroups, GroupChanges, RootChanges, HasChanges, ChangesTaken, ChangedRow, GrossUnderTare,
         StartsAfterEnd, FieldOf, WithNet, FraudAfter;
    var sorted := SortedOf(rt, req, s);
    var changes := RowChanges(rt, s.row.processType, sorted);
    assert f != CheckOutcome;
    SortedRoots(rt, s.tables, req.lastWeighbridge, req.items, f);
    GroupsLeave(rt, s.row.processType, RootChanges(sorted.roots), sorted.groups, f);
    InfoTaken(rt, s.row, changes, f);
  }

  // ----- A request that changes nothing -----

  /** An item sends what prints otherwise than the column it names. */
  predicate Differs(rt: Runtime, row: Row, tables: Tables, last: TableId, raw: Item) {
    var it := Normalized(raw);
    if IsRoot(raw.targetModule) then rt.stringify(Column(row, it.field)) != rt.stringify(it.newValue)
    else
      var r := TargetRef(tables, raw, last);
      r.Some? && rt.stringify(FieldOf(tables.Get(r.value.table)[r.value.index].fields, it.field)) !=
        rt.stringify(it.newValue)
  }

  predicate AnyDiffers(rt: Runtime, row: Row, tables: Tables, last: TableId, items: seq<Item>) {
    exists i :: 0 <= i < |items| && Differs(rt, row, tables, last, items[i])
  }

  predicate GroupsChanged(rt: Runtime, groups: seq<Group>) {
    exists k :: 0 <= k < |groups| && GroupChanged(rt, groups[k])
  }

  predicate RootsChanged(rt: Runtime, row: Row, roots: seq<Item>) {
    exists k :: 0 <= k < |roots| && RootChanged(rt, row, roots[k])
  }

  lemma GroupChangedSnoc(rt: Runtime, g: Group, it: Item)
    ensures GroupChanged(rt, g.(items := g.items + [it])) <==>
      GroupChanged(rt, g) || rt.stringify(FieldOf(g.rec.fields, it.field)) != rt.stringify(it.newValue)
  {
    var more := g.(items := g.items + [it]);
    assert more.items[|g.items|] == it;
    if GroupChanged(rt, g) {
      var i :| 0 <= i < |g.items|
        && rt.stringify(FieldOf(g.rec.fields, g.items[i].field)) != rt.stringify(g.items[i].newValue);
      assert more.items[i] == g.items[i];
    }
  }

  lemma NothingChanged(rt: Runtime, m: TargetModule, r: Ref, rec: Version)
    ensures !GroupChanged(rt, Group(m, r, rec, []))
  {}

  lemma GroupedChanged(rt: Runtime, tables: Tables, groups: seq<Group>, m: TargetModule, r: Ref, it: Item)
    requires GroupsFresh(tables, groups) && IsCurrentRef(tables, r)
    ensures var rec := tables.Get(r.table)[r.index];
      GroupsChanged(rt, Grouped(groups, m, r, rec, it)) <==>
        GroupsChanged(rt, groups) || rt.stringify(FieldOf(rec.fields, it.field)) != rt.stringify(it.newValue)
  {
    hide GroupChanged, FieldOf, FindGroup;
    var rec := tables.Get(r.table)[r.index];
    var after, at := Grouped(groups, m, r, rec, it), FindGroup(groups, m, r);
    var k := if at.Some? then at.value else |groups|;
    var before := if at.Some? then groups[k] else Group(m, r, rec, []);
    assert after[k] == before.(items := before.items + [it]) && before.rec == rec;
    GroupChangedSnoc(rt, before, it);
    NothingChanged(rt, m, r, rec);
    if GroupsChanged(rt, groups) {
      var w :| 0 <= w < |groups| && GroupChanged(rt, groups[w]);
      assert GroupChanged(rt, after[w]);
    }
  }

  lemma RootsChangedSnoc(rt: Runtime, row: Row, roots: seq<Item>, it: Item)
    ensures RootsChanged(rt, row, roots + [it]) <==> RootsChanged(rt, row, roots) || RootChanged(rt, row, it)
  {
    hide RootChanged;
    assert (roots + [it])[|roots|] == it;
    if RootsChanged(rt, row, roots) {
      var k :| 0 <= k < |roots| && RootChanged(rt, row, roots[k]);
      assert (roots + [it])[k] == roots[k];
    }
  }

  lemma AnyDiffersSnoc(rt: Runtime, row: Row, tables: Tables, last: TableId, items: seq<Item>)
    requires items != []
    ensures AnyDiffers(rt, row, tables, last, items) <==>
      AnyDiffers(rt, row, tables, last, items[..|items| - 1]) || Differs(rt, row, tables, last, items[|items| - 1])
  {
    hide Differs;
  }

  lemma {:induction false} SortedChanges(rt: Runtime, row: Row, tables: Tables, last: TableId, items: seq<Item>)
    requires SortItems(rt, tables, last, items).Ok?
    ensures var sorted := SortItems(rt, tables, last, items).value;
      RootsChanged(rt, row, sorted.roots) || GroupsChanged(rt, sorted.groups) <==>
        AnyDiffers(rt, row, tables, last, items)
  {
    if items != [] {
      var init, raw := items[..|items| - 1], items[|items| - 1];
      SortedChanges(rt, row, tables, last, init);
      SortItemsFresh(rt, tables, last, init);
      AnyDiffersSnoc(rt, row, tables, last, items);
      SortedItemChanges(rt, row, tables, last, SortItems(rt, tables, last, init).value, raw);
      hide SortItem, RootsChanged, GroupsChanged, AnyDiffers, Differs;
    }
  }

  lemma SortedItemChanges(rt: Runtime, row: Row, tables: Tables, last: TableId, acc: Sorted, raw: Item)
    requires SortItem(rt, tables, last, acc, raw).Ok? && GroupsFresh(tables, acc.groups)
    ensures var r := SortItem(rt, tables, last, acc, raw).value;
      RootsChanged(rt, row, r.roots) || GroupsChanged(rt, r.groups) <==>
        RootsChanged(rt, row, acc.roots) || GroupsChanged(rt, acc.groups) || Differs(rt, row, tables, last, raw)
  {
    hide SortItem, Grouped, RootsChanged, GroupsChanged, GroupsFresh, TargetRef, Normalized, FieldOf, Column;
    SortedItemGroups(rt, tables, last, acc, raw);
    SortedItemRoots(rt, tables, last, acc, raw);
    if IsRoot(raw.targetModule) {
      RootsChangedSnoc(rt, row, acc.roots, Normalized(raw));
    } else {
      GroupedChanged(rt, tables, acc.groups, raw.targetModule, TargetRef(tables, raw, last).value, Normalized(raw));
    }
  }

  /** A data correction is refused as no change exactly when every item sends what is there already. */
  lemma NoChangeIff(rt: Runtime, req: CorrectionRequest, s: Dossier)
    requires SortItems(rt, s.tables, req.lastWeighbridge, req.items).Ok? && req.action == CorrectData
    ensures CorrectRecords(rt, req, s) == Err(NoChange) <==>
      !AnyDiffers(rt, s.row, s.tables, req.lastWeighbridge, req.items)
  {
    hide SortItems, SupersedeGroup, RowChanges, ChangesTaken, ChangedRow, GrossUnderTare, StartsAfterEnd, AnyDiffers,
         RootChanged, GroupChanged;
    var sorted := SortItems(rt, s.tables, req.lastWeighbridge, req.items).value;
    SortedChanges(rt, s.row, s.tables, req.lastWeighbridge, req.items);
    assert HasChanges(rt, s.row, sorted) <==> RootsChanged(rt, s.row, sorted.roots) || GroupsChanged(rt, sorted.groups);
    NoChangeFromRecords(rt, |s.corrections|, sorted.groups, Headed(req, sorted, s));
  }

  lemma {:induction false} NoChangeFromRecords(rt: Runtime, c: nat, groups: seq<Group>, db: Dossier)
    ensures SupersedeGroups(rt, c, groups, db) != Err(NoChange)
  {
    hide RecordTaken, Edited, StoredGroup, Restrict, CopiedColumns;
    if groups != [] {
      NoChangeFromRecords(rt, c, groups[..|groups| - 1], db);
    }
  }

  // ----- The reopened row -----

  /** The row of a new check-in, with what every reopening keeps. */
  function Anew(row: Row, info: map<Field, Json>): Row {
    NewDossier(row.processType, info).row.(
      revision := row.revision + 1, isVoided := row.isVoided, voidedAt := row.voidedAt, info := info)
  }

  function KeepWeights(to: Row, from: Row): Row {
    to.(weighInAt := from.weighInAt, grossWeight := from.grossWeight, tareWeight := from.tareWeight,
        netWeight := from.netWeight)
  }

  function KeepVehicleCheck(to: Row, from: Row): Row {
    to.(qcStartAt := from.qcStartAt, qcEndAt := from.qcEndAt)
  }

  function KeepProcess(to: Row, from: Row): Row {
    to.(warehouseStartAt := from.warehouseStartAt, warehouseEndAt := from.warehouseEndAt,
        actualWeight := from.actualWeight, actualQuantity := from.actualQuantity)
  }

  /**
   * A reopened row is that of a new check-in that has just come to the target: the weights are kept past weigh-in, the
   * vehicle check's times past the check, the figures of the process past the warehouse.
   */
  lemma ReopenedAnew(req: CorrectionRequest, target: Status, s: Dossier)
    requires Reopen(req, target, s).Ok?
    ensures var after := Reopen(req, target, s).value.row;
      var start, to := Anew(s.row, after.info).(status := after.status), after.status;
      && (to == Registered ==> after == start)
      && (to == QcVehiclePending ==> after == KeepWeights(start, WithNet(s.row)))
      && (to == QcVehiclePassed ==> after == KeepVehicleCheck(KeepWeights(start, WithNet(s.row)), s.row))
      && (to == IncomingCheckPending ==>
          after == KeepProcess(KeepVehicleCheck(KeepWeights(start, WithNet(s.row)), s.row), s.row))
      && FieldOf(after.info, CancellationReason) == Null
  {
    hide ClearedTables, FraudAfter, GrossUnderTare, StartsAfterEnd;
  }
}
