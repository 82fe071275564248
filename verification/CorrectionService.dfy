/** The correction as it runs: loops sort and evaluate the items, then records are superseded and appended in place. */
module CorrectionService {
  import opened Prelude
  import opened Workflow
  import opened Records
  import opened Steps
  import opened Corrections
  import opened Protocol
  import opened Store

  // ----- Sorting -----

  lemma {:induction false} SortStops(rt: Runtime, tables: Tables, last: TableId, items: seq<Item>, i: nat)
    requires i <= |items| && SortItems(rt, tables, last, items[..i]).Err?
    ensures SortItems(rt, tables, last, items) == SortItems(rt, tables, last, items[..i])
  {
    if i == |items| {
      assert items[..i] == items;
    } else {
      assert items[..|items| - 1][..i] == items[..i];
      SortStops(rt, tables, last, items[..|items| - 1], i);
    }
  }

  method Sort(rt: Runtime, tables: Tables, last: TableId, items: seq<Item>) returns (sorted: Result<Sorted, Reason>)
    ensures sorted == SortItems(rt, tables, last, items)
  {
    hide DomainValid, Allowlist, Normalized, TargetRef;
    var rootItems: seq<Item>, recordGroups: seq<Group> := [], [];
    for i := 0 to |items|
      invariant SortItems(rt, tables, last, items[..i]) == Ok(Sorted(rootItems, recordGroups))
    {
      assert items[..i + 1][..i] == items[..i];
      if items[i].field !in Allowlist(items[i].targetModule) {
        SortStops(rt, tables, last, items, i + 1);
        return Err(FieldDenied);
      }
      if !DomainValid(rt, items[i].field, items[i].newValue) {
        SortStops(rt, tables, last, items, i + 1);
        return Err(MalformedInput);
      }
      var item := Normalized(items[i]);
      if IsRoot(item.targetModule) {
        rootItems := rootItems + [item];
      } else {
        var rec := TargetRef(tables, item, last);
        if rec.None? {
          SortStops(rt, tables, last, items, i + 1);
          return Err(RecordMissing);
        }
        var known := FindGroup(recordGroups, item.targetModule, rec.value);
        if known.None? {
          recordGroups := recordGroups
            + [Group(item.targetModule, rec.value, tables.Get(rec.value.table)[rec.value.index], [item])];
        } else {
          var group := recordGroups[known.value];
          recordGroups := recordGroups[known.value := group.(items := group.items + [item])];
        }
      }
    }
    assert items[..|items|] == items;
    return Ok(Sorted(rootItems, recordGroups));
  }

  // ----- First pass: what changes on the row -----

  method EvaluateRoots(rt: Runtime, row: Row, roots: seq<Item>) returns (changes: map<Field, Json>, changed: bool)
    ensures changes == RootChanges(roots)
    ensures changed <==> exists i :: 0 <= i < |roots| && RootChanged(rt, row, roots[i])
  {
    changes, changed := map[], false;
    for i := 0 to |roots|
      invariant changes == RootChanges(roots[..i])
      invariant changed <==> exists k :: 0 <= k < i && RootChanged(rt, row, roots[k])
    {
      assert roots[..i + 1][..i] == roots[..i];
      changes := changes[roots[i].field := roots[i].newValue];
      if rt.stringify(Column(row, roots[i].field)) != rt.stringify(roots[i].newValue) {
        changed := true;
      }
    }
    assert roots[..|roots|] == roots;
  }

  method EvaluateGroup(rt: Runtime, pt: ProcessType, group: Group, before: map<Field, Json>)
    returns (changes: map<Field, Json>, changed: bool)
    ensures changes == RecordChanges(rt, pt, group.ref.table, before, group.items)
    ensures changed <==> GroupChanged(rt, group)
  {
    hide ItemChanges;
    changes, changed := before, false;
    for i := 0 to |group.items|
      invariant changes == RecordChanges(rt, pt, group.ref.table, before, group.items[..i])
      invariant changed <==> GroupChanged(rt, group.(items := group.items[..i]))
    {
      assert group.items[..i + 1][..i] == group.items[..i];
      changes := ItemChanges(rt, pt, group.ref.table, changes, group.items[i]);
      if rt.stringify(FieldOf(group.rec.fields, group.items[i].field)) != rt.stringify(group.items[i].newValue) {
        changed := true;
      }
    }
    assert group.items[..|group.items|] == group.items;
  }

  method Evaluate(rt: Runtime, row: Row, sorted: Sorted) returns (changes: map<Field, Json>, changed: bool)
    ensures changes == RowChanges(rt, row.processType, sorted)
    ensures changed <==> HasChanges(rt, row, sorted)
  {
    hide RootChanges, RootChanged, GroupChanged, RecordChanges;
    var groups := sorted.groups;
    changes, changed := EvaluateRoots(rt, row, sorted.roots);
    var rootsChanged := changed;
    for k := 0 to |groups|
      invariant changes == GroupChanges(rt, row.processType, RootChanges(sorted.roots), groups[..k])
      invariant changed <==> rootsChanged || exists j :: 0 <= j < k && GroupChanged(rt, groups[j])
    {
      assert groups[..k + 1][..k] == groups[..k];
      var differs;
      changes, differs := EvaluateGroup(rt, row.processType, groups[k], changes);
      if differs {
        changed := true;
      }
    }
    assert groups[..|groups|] == groups;
  }

  // ----- Second pass: superseding and appending -----

  method Edit(rt: Runtime, t: TableId, copied: map<Field, Json>, items: seq<Item>) returns (fields: map<Field, Json>)
    ensures fields == Edited(rt, t, copied, items)
  {
    hide Coerced;
    fields := copied;
    for i := 0 to |items|
      invariant fields == Edited(rt, t, copied, items[..i])
    {
      assert items[..i + 1][..i] == items[..i];
      fields := fields[items[i].field := Coerced(rt, t, items[i].field, items[i].newValue)];
    }
    assert items[..|items|] == items;
  }

  /** One payload an item, in the order of the items. */
  method Payloads(c: nat, group: Group, replacement: Ref) returns (payloads: seq<StoredItem>)
    ensures payloads == StoredGroup(c, group, replacement)
  {
    payloads := [];
    for i := 0 to |group.items|
      invariant payloads == StoredGroup(c, group, replacement)[..i]
    {
      payloads := payloads
        + [StoredItem(c, group.items[i].targetModule, Some(group.ref), Some(replacement), group.items[i].field,
                                         FieldOf(group.rec.fields, group.items[i].field), group.items[i].newValue)];
    }
  }

  method RootPayloads(row: Row, c: nat, roots: seq<Item>) returns (payloads: seq<StoredItem>)
    ensures payloads == StoredRoots(row, c, roots)
  {
    hide Column;
    payloads := [];
    for i := 0 to |roots|
      invariant payloads == StoredRoots(row, c, roots)[..i]
    {
      payloads := payloads
        + [StoredItem(c, roots[i].targetModule, None, None, roots[i].field, Column(row, roots[i].field),
                                         roots[i].newValue)];
    }
  }

  function WithItems(s: Dossier, more: seq<StoredItem>): Dossier {
    s.(items := s.items + more)
  }

  /** The record is retired where it still is the current one of its revision, then its edited copy is appended. */
  method SupersedeAndAppend(db: Database, rt: Runtime, c: nat, group: Group)
    returns (payloads: seq<StoredItem>, refused: Option<Reason>)
    modifies db
    ensures db.items == old(db.items) && db.fraudChecks == old(db.fraudChecks)
    ensures match SupersedeGroup(rt, c, group, old(db.State()))
      case Ok(next) => refused == None && next == WithItems(db.State(), payloads)
      case Err(reason) => refused == Some(reason)
  {
    hide Edited, RecordTaken, Restrict, CopiedColumns, StoredGroup;
    var t, at := group.ref.table, group.ref.index;
    var vs := db.State().tables.Get(t);
    if !(at < |vs| && vs[at].isCurrent && vs[at].revision == group.rec.revision) {
      return [], Some(SupersededMeanwhile);
    }
    vs := vs[at := Superseded(vs[at], c)];
    var fields := Edit(rt, t, Restrict(group.rec.fields, CopiedColumns(t)), group.items);
    if !RecordTaken(rt, t, group.items) {
      return [], Some(ColumnRejected);
    }
    var replacement := Ref(t, |vs|);
    db.Write(t, vs + [Version(group.rec.revision + 1, true, None, fields)]);
    payloads := Payloads(c, group, replacement);
    refused := None;
  }

  lemma {:induction false} SupersedingStops(rt: Runtime, c: nat, groups: seq<Group>, db: Dossier, k: nat)
    requires k <= |groups| && SupersedeGroups(rt, c, groups[..k], db).Err?
    ensures SupersedeGroups(rt, c, groups, db) == SupersedeGroups(rt, c, groups[..k], db)
  {
    if k == |groups| {
      assert groups[..k] == groups;
    } else {
      assert groups[..|groups| - 1][..k] == groups[..k];
      SupersedingStops(rt, c, groups[..|groups| - 1], db, k);
    }
  }

  /** Superseding looks at records, never at the stored items, so these may be written in one go at the end. */
  lemma ItemsLast(rt: Runtime, c: nat, g: Group, db: Dossier, earlier: seq<StoredItem>)
    ensures match SupersedeGroup(rt, c, g, db)
      case Ok(next) => |db.items| <= |next.items| &&
        SupersedeGroup(rt, c, g, WithItems(db, earlier)) ==
          Ok(next.(items := db.items + earlier + next.items[|db.items|..]))
      case Err(reason) => SupersedeGroup(rt, c, g, WithItems(db, earlier)) == Err(reason)
  {
    hide Edited, RecordTaken, Restrict, CopiedColumns, StoredGroup;
  }

  method SupersedeRecords(db: Database, rt: Runtime, c: nat, groups: seq<Group>, roots: seq<StoredItem>)
    returns (refused: Option<Reason>)
    modifies db
    ensures db.fraudChecks == old(db.fraudChecks)
    ensures match SupersedeGroups(rt, c, groups, WithItems(old(db.State()), roots))
      case Ok(next) => refused == None && db.State() == next
      case Err(reason) => refused == Some(reason)
  {
    hide SupersedeGroup;
    var itemInsertPayloads := roots;
    ghost var base := WithItems(db.State(), roots);
    for k := 0 to |groups|
      invariant db.items == old(db.items) && db.fraudChecks == old(db.fraudChecks)
      invariant SupersedeGroups(rt, c, groups[..k], base) == Ok(WithItems(db.State(), itemInsertPayloads))
    {
      assert groups[..k + 1][..k] == groups[..k];
      ItemsLast(rt, c, groups[k], db.State(), itemInsertPayloads);
      var payloads;
      payloads, refused := SupersedeAndAppend(db, rt, c, groups[k]);
      if refused.Some? {
        SupersedingStops(rt, c, groups, base, k + 1);
        return;
      }
      assert db.items + itemInsertPayloads + payloads == db.items + (itemInsertPayloads + payloads);
      itemInsertPayloads := itemInsertPayloads + payloads;
    }
    assert groups[..|groups|] == groups;
    db.items := db.items + itemInsertPayloads;
    refused := None;
  }

  // ----- The two actions -----

  method CorrectInPlace(db: Database, rt: Runtime, req: CorrectionRequest) returns (refused: Option<Reason>)
    modifies db
    ensures Settled(CorrectRecords(rt, req, old(db.State())), old(db.State()), db.State(), refused)
  {
    hide SortItems, RowChanges, ChangedRow, HasChanges, ChangesTaken, SupersedeGroups, StoredRoots, FraudAfter,
         GrossUnderTare, StartsAfterEnd;
    var saved := db.State();
    var sorted := Sort(rt, saved.tables, req.lastWeighbridge, req.items);
    if sorted.Err? {
      return Some(sorted.error);
    }
    var changes, changed := Evaluate(rt, saved.row, sorted.value);
    if req.action == CorrectData && !changed {
      return Some(NoChange);
    }
    if !ChangesTaken(rt, changes) {
      return Some(ColumnRejected);
    }
    var data := ChangedRow(saved.row, changes);
    if GrossUnderTare(data) {
      return Some(GrossBelowTare);
    }
    if StartsAfterEnd(data) {
      return Some(StartAfterEnd);
    }
    var c := |db.corrections|;
    db.corrections := db.corrections + [Correction(false, req.expectedRevision)];
    var payloads := RootPayloads(saved.row, c, sorted.value.roots);
    refused := SupersedeRecords(db, rt, c, sorted.value.groups, payloads);
    if refused.Some? {
      db.Rollback(saved);
      return;
    }
    db.row := WithNet(data).(revision := saved.row.revision + 1);
    db.fraudChecks := db.fraudChecks + FraudAfter(db.row);
  }

  function ClearedIf(t: TableId, to: Status, vs: seq<Version>, c: nat): seq<Version> {
    if t in Cleared(to) then SupersedeCurrent(vs, c) else vs
  }

  lemma TablesCleared(tables: Tables, to: Status, c: nat)
    ensures ClearedTables(tables, Cleared(to), c) == Tables(
      ClearedIf(InWeights, to, tables.inWeights, c), ClearedIf(OutWeights, to, tables.outWeights, c),
      ClearedIf(VehicleChecks, to, tables.vehicleChecks, c), ClearedIf(MaterialChecks, to, tables.materialChecks, c),
      ClearedIf(Warehousing, to, tables.warehousing, c))
  {
    hide SupersedeCurrent, Cleared;
  }

  /** The stage matrix: which records each target clears. */
  method ClearStage(db: Database, to: Status, c: nat)
    requires to in ReopenTargets(GBB)
    modifies db`inWeights, db`outWeights, db`vehicleChecks, db`materialChecks, db`warehousing
    ensures db.inWeights == ClearedIf(InWeights, to, old(db.inWeights), c)
    ensures db.outWeights == ClearedIf(OutWeights, to, old(db.outWeights), c)
    ensures db.vehicleChecks == ClearedIf(VehicleChecks, to, old(db.vehicleChecks), c)
    ensures db.materialChecks == ClearedIf(MaterialChecks, to, old(db.materialChecks), c)
    ensures db.warehousing == ClearedIf(Warehousing, to, old(db.warehousing), c)
  {
    hide SupersedeCurrent;
    db.outWeights := SupersedeCurrent(db.outWeights, c);
    if to == Registered {
      db.inWeights := SupersedeCurrent(db.inWeights, c);
      db.vehicleChecks := SupersedeCurrent(db.vehicleChecks, c);
      db.materialChecks := SupersedeCurrent(db.materialChecks, c);
      db.warehousing := SupersedeCurrent(db.warehousing, c);
    } else if to == QcVehiclePending {
      db.vehicleChecks := SupersedeCurrent(db.vehicleChecks, c);
      db.materialChecks := SupersedeCurrent(db.materialChecks, c);
      db.warehousing := SupersedeCurrent(db.warehousing, c);
    } else if to == QcVehiclePassed {
      db.warehousing := SupersedeCurrent(db.warehousing, c);
      db.materialChecks := SupersedeCurrent(db.materialChecks, c);
    } else {
      db.materialChecks := SupersedeCurrent(db.materialChecks, c);
    }
  }

  lemma InboundTargetsMost(pt: ProcessType)
    ensures ReopenTargets(pt) <= ReopenTargets(GBB)
  {}

  method ReopenWorkflowAt(db: Database, req: CorrectionRequest, target: Status) returns (refused: Option<Reason>)
    modifies db
    ensures Settled(Reopen(req, target, old(db.State())), old(db.State()), db.State(), refused)
  {
    hide FraudAfter, GrossUnderTare, StartsAfterEnd, WithNet, ReopenedRow, ClearedTables, Cleared, ClearedIf,
      EffectiveTarget, ReopenTargets;
    var saved := db.State();
    if GrossUnderTare(saved.row) {
      return Some(GrossBelowTare);
    }
    if StartsAfterEnd(saved.row) {
      return Some(StartAfterEnd);
    }
    var c := |db.corrections|;
    db.corrections := db.corrections + [Correction(true, req.expectedRevision)];
    var to := EffectiveTarget(target);
    if to !in ReopenTargets(saved.row.processType) {
      db.Rollback(saved);
      return Some(TargetNotAllowed);
    }
    InboundTargetsMost(saved.row.processType);
    ClearStage(db, to, c);
    TablesCleared(saved.tables, to, c);
    db.row := ReopenedRow(WithNet(saved.row), to);
    db.AppendHistory(saved.row.status, to);
    db.fraudChecks := db.fraudChecks + FraudAfter(db.row);
    refused := None;
  }

  lemma ActionChosen(req: CorrectionRequest)
    requires ReadCorrection(req).None?
    ensures req.action == ReopenWorkflow <==> req.reopenTarget.Some?
  {}

  /** The final compare-and-swap repeats, in the same database transaction, the revision test made here. */
  method CorrectOperationLog(db: Database, rt: Runtime, req: CorrectionRequest) returns (refused: Option<Reason>)
    modifies db
    ensures Settled(Apply(rt, Correct(req), old(db.State())), old(db.State()), db.State(), refused)
  {
    hide CorrectRecords, Reopen, ReadCorrection;
    refused := ReadCorrection(req);
    if refused.Some? {
      return;
    }
    ActionChosen(req);
    if !Terminal(db.row.status) {
      return Some(NotTerminal);
    }
    if req.action == ReopenWorkflow && db.row.isVoided {
      return Some(VoidedStays);
    }
    if db.row.revision != req.expectedRevision {
      return Some(Conflict);
    }
    if req.action == ReopenWorkflow {
      refused := ReopenWorkflowAt(db, req, req.reopenTarget.value);
    } else {
      refused := CorrectInPlace(db, rt, req);
    }
  }
}
