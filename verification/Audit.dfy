/** The stored correction items replay every correction, and one record cannot be corrected under two names. */
module Audit {
  import opened Prelude
  import opened Workflow
  import opened Records
  import opened Steps
  import opened Corrections
  import opened Protocol
  import opened Stages
  import opened Mirrors
  import opened Weights

  /** The audit trail of one superseded record: the items stored for it under one correction, in order. */
  function ItemsFor(items: seq<StoredItem>, c: nat, r: Ref): seq<StoredItem> {
    if items == [] then []
    else
      var last := items[|items| - 1];
      ItemsFor(items[..|items| - 1], c, r) + if last.correction == c && last.target == Some(r) then [last] else []
  }

  function Replay(rt: Runtime, t: TableId, fields: map<Field, Json>, items: seq<StoredItem>): map<Field, Json> {
    if items == [] then fields
    else
      var last := items[|items| - 1];
      Replay(rt, t, fields, items[..|items| - 1])[last.field := Coerced(rt, t, last.field, last.newValue)]
  }

  /** Where a data correction superseded record i, replaying its items over its copied columns gives record i + 1. */
  ghost predicate PairAudited(
    rt: Runtime, t: TableId, vs: seq<Version>, i: nat, corrections: seq<Correction>, items: seq<StoredItem>)
    requires i + 1 < |vs|
  {
    var c := vs[i].supersededBy;
    c.Some? && c.value < |corrections| && !corrections[c.value].reopens ==>
      vs[i + 1].fields == Replay(rt, t, Restrict(vs[i].fields, CopiedColumns(t)), ItemsFor(items, c.value, Ref(t, i)))
  }

  ghost predicate Reopened(v: Version, corrections: seq<Correction>) {
    v.supersededBy.Some? && v.supersededBy.value < |corrections| && corrections[v.supersededBy.value].reopens
  }

  ghost predicate PairsAudited(
    rt: Runtime, t: TableId, vs: seq<Version>, corrections: seq<Correction>, items: seq<StoredItem>)
  {
    forall i :: 0 <= i < |vs| - 1 ==> PairAudited(rt, t, vs, i, corrections, items)
  }

  /** Items are stored only for records already superseded; a lineage without a current record ends in a reopening. */
  ghost predicate TableSettled(t: TableId, vs: seq<Version>, corrections: seq<Correction>, items: seq<StoredItem>) {
    && (vs != [] && !vs[|vs| - 1].isCurrent ==> Reopened(vs[|vs| - 1], corrections))
    && (forall k :: 0 <= k < |items| && items[k].target.Some? && items[k].target.value.table == t ==>
        items[k].target.value.index < |vs| && !vs[items[k].target.value.index].isCurrent)
  }

  ghost predicate TableAudited(
    rt: Runtime, t: TableId, vs: seq<Version>, corrections: seq<Correction>, items: seq<StoredItem>)
  {
    PairsAudited(rt, t, vs, corrections, items) && TableSettled(t, vs, corrections, items)
  }

  /** The process being worked on was not made by a correction, so editing it in place loses nothing. */
  ghost predicate OpenProcessFresh(s: Dossier) {
    var vs := s.tables.warehousing;
    s.row.status == WarehouseInProgress && |vs| >= 2 ==> Reopened(vs[|vs| - 2], s.corrections)
  }

  ghost predicate AllAudited(rt: Runtime, tables: Tables, corrections: seq<Correction>, items: seq<StoredItem>) {
    forall t :: TableAudited(rt, t, tables.Get(t), corrections, items)
  }

  ghost predicate Audited(rt: Runtime, s: Dossier) {
    AllAudited(rt, s.tables, s.corrections, s.items) && OpenProcessFresh(s)
  }

  // ----- Forward steps -----

  lemma InsertKeepsAudit(
    rt: Runtime, t: TableId, vs: seq<Version>, fields: map<Field, Json>, corrections: seq<Correction>,
    items: seq<StoredItem>)
    requires Lineage(vs, |corrections|) && !HasCurrent(vs) && TableAudited(rt, t, vs, corrections, items)
    ensures TableAudited(rt, t, Inserted(vs, fields), corrections, items)
    ensures vs != [] ==> Reopened(vs[|vs| - 1], corrections)
  {
    hide Replay, ItemsFor, MaxRevision;
    var after := Inserted(vs, fields);
    forall i | 0 <= i < |after| - 1 ensures PairAudited(rt, t, after, i, corrections, items) {
      if i < |vs| - 1 {
        assert PairAudited(rt, t, vs, i, corrections, items);
        assert after[i] == vs[i] && after[i + 1] == vs[i + 1];
      } else {
        assert after[i] == vs[|vs| - 1];
      }
    }
  }

  lemma EditKeepsAudit(
    rt: Runtime, t: TableId, vs: seq<Version>, fields: map<Field, Json>, corrections: seq<Correction>,
    items: seq<StoredItem>)
    requires vs != [] && TableAudited(rt, t, vs, corrections, items)
    requires |vs| >= 2 ==> Reopened(vs[|vs| - 2], corrections)
    ensures TableAudited(rt, t, vs[|vs| - 1 := vs[|vs| - 1].(fields := fields)], corrections, items)
  {
    hide Replay, ItemsFor;
    var after := vs[|vs| - 1 := vs[|vs| - 1].(fields := fields)];
    forall i | 0 <= i < |after| - 1 ensures PairAudited(rt, t, after, i, corrections, items) {
      assert PairAudited(rt, t, vs, i, corrections, items);
    }
  }

  lemma InsertAudited(rt: Runtime, s: Dossier, after: Dossier, t: TableId, fields: map<Field, Json>)
    requires Lineages(s) && Audited(rt, s) && !HasCurrent(s.tables.Get(t))
    requires after.tables == s.tables.Set(t, Inserted(s.tables.Get(t), fields))
    requires after.corrections == s.corrections && after.items == s.items
    requires after.row.status == WarehouseInProgress ==> t == Warehousing
    ensures Audited(rt, after)
  {
    hide TableAudited, MaxRevision;
    assert Lineage(s.tables.Get(t), |s.corrections|);
    assert TableAudited(rt, t, s.tables.Get(t), s.corrections, s.items);
    InsertKeepsAudit(rt, t, s.tables.Get(t), fields, s.corrections, s.items);
    forall u ensures TableAudited(rt, u, after.tables.Get(u), after.corrections, after.items) {
      assert TableAudited(rt, u, s.tables.Get(u), s.corrections, s.items);
    }
  }

  lemma EditAudited(rt: Runtime, s: Dossier, after: Dossier, fields: map<Field, Json>)
    requires Audited(rt, s) && s.row.status == WarehouseInProgress && s.tables.warehousing != []
    requires var vs := s.tables.warehousing;
      after.tables == s.tables.Set(Warehousing, vs[|vs| - 1 := vs[|vs| - 1].(fields := fields)])
    requires after.corrections == s.corrections && after.items == s.items
    ensures Audited(rt, after)
  {
    hide TableAudited;
    assert TableAudited(rt, Warehousing, s.tables.Get(Warehousing), s.corrections, s.items);
    EditKeepsAudit(rt, Warehousing, s.tables.warehousing, fields, s.corrections, s.items);
    forall u ensures TableAudited(rt, u, after.tables.Get(u), after.corrections, after.items) {
      assert TableAudited(rt, u, s.tables.Get(u), s.corrections, s.items);
    }
  }

  lemma InsertingKeepsAudit(rt: Runtime, f: Forward, s: Dossier)
    requires Lineages(s) && Staged(s) && Audited(rt, s) && ApplyForward(f, s).Ok?
    requires f.WeighIn? || f.WeighOut? || f.SubmitVehicleCheck?
    ensures Audited(rt, ApplyForward(f, s).value)
  {
    hide Audited, Lineages, Inserted, HasCurrent, KnownInWeight, VehicleVerdict, VehicleRecord, Assess;
    var after := ApplyForward(f, s).value;
    DuplicateGuardsNeverFire(f, s);
    match f
    case WeighIn(weight, ticket, remarks, now) =>
      InsertAudited(rt, s, after, InWeights, WeighRecord(weight, ticket, remarks));
    case WeighOut(weight, ticket, remarks, now) =>
      InsertAudited(rt, s, after, OutWeights, WeighRecord(weight, ticket, remarks));
    case SubmitVehicleCheck(form, checks, notes, checklist, now) =>
      InsertAudited(rt, s, after, VehicleChecks,
        VehicleRecord(s.row.processType, form, checks, notes, checklist, OrNow(s.row.qcStartAt, now), now));
  }

  lemma MaterialKeepsAudit(rt: Runtime, f: Forward, s: Dossier)
    requires Lineages(s) && Staged(s) && Audited(rt, s) && ApplyForward(f, s).Ok?
    requires f.SubmitIncomingCheck? || f.SubmitIncomingAtWarehouse?
    ensures Audited(rt, ApplyForward(f, s).value)
  {
    hide Audited, Lineages, Inserted, HasCurrent;
    var after := ApplyForward(f, s).value;
    DuplicateGuardsNeverFire(f, s);
    match f
    case SubmitIncomingCheck(passed, details, now) =>
      InsertAudited(rt, s, after, MaterialChecks, MaterialColumns(details)
        + map[CheckOutcome := ResultWord(passed), StartedAt := OptDate(OrNow(s.row.incomingQcStartAt, now)),
          CompletedAt := Date(now)]);
    case SubmitIncomingAtWarehouse(passed, notes, now) =>
      InsertAudited(rt, s, after, MaterialChecks,
        map[CheckOutcome := ResultWord(passed), Notes := notes, CompletedAt := Date(now)]);
  }

  lemma StartKeepsAudit(rt: Runtime, remarks: Json, now: int, s: Dossier)
    requires Lineages(s) && Staged(s) && Audited(rt, s)
    requires ReadStartWarehouse(s).None? && CommitStartWarehouse(remarks, now, s.row, s).Ok?
    ensures Audited(rt, CommitStartWarehouse(remarks, now, s.row, s).value)
  {
    hide Audited, Lineages, Inserted, HasCurrent;
    assert Warehousing in LaterTables(s.row.status);
    InsertAudited(rt, s, CommitStartWarehouse(remarks, now, s.row, s).value, Warehousing,
      map[StartAt := Date(now), Remarks := remarks]);
  }

  lemma CompleteKeepsAudit(
    rt: Runtime, weight: Option<real>, quantity: Option<real>, details: map<Field, Json>, now: int, s: Dossier)
    requires Lineages(s) && Staged(s) && Audited(rt, s)
    requires ReadCompleteWarehouse(weight, quantity, s).None?
    requires CommitCompleteWarehouse(weight, quantity, details, now, s.row, s).Ok?
    ensures Audited(rt, CommitCompleteWarehouse(weight, quantity, details, now, s.row, s).value)
  {
    hide Audited, Lineages, Staged, ActiveAt, Measured;
    OpenProcessIsLast(s);
    var vs := s.tables.warehousing;
    EditAudited(rt, s, CommitCompleteWarehouse(weight, quantity, details, now, s.row, s).value,
      vs[|vs| - 1].fields + Measured(weight, quantity, details, now));
  }

  lemma AnalysisKeepsAudit(rt: Runtime, note: Option<string>, now: int, s: Dossier)
    requires Lineages(s) && Staged(s) && Audited(rt, s)
    requires ReadCompleteAnalysis(s).None? && CommitCompleteAnalysis(note, now, s.row, s).Ok?
    ensures Audited(rt, CommitCompleteAnalysis(note, now, s.row, s).value)
  {
    hide AllAudited, Lineages, Staged, ActiveAt;
    OpenProcessIsLast(s);
    var vs := s.tables.warehousing;
    if note.Some? {
      EditAudited(rt, s, CommitCompleteAnalysis(note, now, s.row, s).value,
        vs[|vs| - 1].fields[Remarks := Text(note.value)]);
    }
  }

  lemma OthersKeepAudit(rt: Runtime, f: Forward, s: Dossier)
    requires Audited(rt, s) && ApplyForward(f, s).Ok?
    requires f.StartQc? || f.CheckOut? || f.CancelAtGate? || f.Cancel? || f.Void?
    ensures Audited(rt, ApplyForward(f, s).value)
  {
    hide AllAudited;
  }

  lemma ForwardKeepsAudit(rt: Runtime, f: Forward, s: Dossier)
    requires Lineages(s) && Staged(s) && Audited(rt, s) && ApplyForward(f, s).Ok?
    ensures Audited(rt, ApplyForward(f, s).value)
  {
    hide Audited, Lineages, Staged;
    match f
    case WeighIn(_, _, _, _) => InsertingKeepsAudit(rt, f, s);
    case WeighOut(_, _, _, _) => InsertingKeepsAudit(rt, f, s);
    case SubmitVehicleCheck(_, _, _, _, _) => InsertingKeepsAudit(rt, f, s);
    case SubmitIncomingCheck(_, _, _) => MaterialKeepsAudit(rt, f, s);
    case SubmitIncomingAtWarehouse(_, _, _) => MaterialKeepsAudit(rt, f, s);
    case StartWarehouse(remarks, now) => StartKeepsAudit(rt, remarks, now, s);
    case CompleteWarehouse(weight, quantity, details, now) => CompleteKeepsAudit(rt, weight, quantity, details, now, s);
    case CompleteAnalysis(note, now) => AnalysisKeepsAudit(rt, note, now, s);
    case _ => OthersKeepAudit(rt, f, s);
  }

  // ----- Corrections -----

  lemma MoreCorrections(
    rt: Runtime, t: TableId, vs: seq<Version>, corrections: seq<Correction>, c: Correction, items: seq<StoredItem>)
    requires Lineage(vs, |corrections|) && TableAudited(rt, t, vs, corrections, items)
    ensures TableAudited(rt, t, vs, corrections + [c], items)
  {
    hide Replay, ItemsFor;
    forall i | 0 <= i < |vs| - 1 ensures PairAudited(rt, t, vs, i, corrections + [c], items) {
      assert PairAudited(rt, t, vs, i, corrections, items);
    }
  }

  lemma ReopeningKeepsAudit(
    rt: Runtime, t: TableId, vs: seq<Version>, corrections: seq<Correction>, c: Correction, items: seq<StoredItem>)
    requires Lineage(vs, |corrections|) && TableAudited(rt, t, vs, corrections, items) && c.reopens
    ensures TableAudited(rt, t, SupersedeCurrent(vs, |corrections|), corrections + [c], items)
  {
    hide Replay, ItemsFor;
    MoreCorrections(rt, t, vs, corrections, c, items);
    var after := SupersedeCurrent(vs, |corrections|);
    forall i | 0 <= i < |after| - 1 ensures PairAudited(rt, t, after, i, corrections + [c], items) {
      assert PairAudited(rt, t, vs, i, corrections + [c], items);
    }
  }

  lemma ReopenKeepsAudit(rt: Runtime, req: CorrectionRequest, target: Status, s: Dossier)
    requires Lineages(s) && Audited(rt, s) && Reopen(req, target, s).Ok?
    ensures Audited(rt, Reopen(req, target, s).value)
  {
    hide TableAudited, ReopenedRow, WithNet, FraudAfter;
    var after := Reopen(req, target, s).value;
    forall t ensures TableAudited(rt, t, after.tables.Get(t), after.corrections, after.items) {
      assert Lineage(s.tables.Get(t), |s.corrections|) && TableAudited(rt, t, s.tables.Get(t), s.corrections, s.items);
      if t in Cleared(EffectiveTarget(target)) {
        ReopeningKeepsAudit(rt, t, s.tables.Get(t), s.corrections, Correction(true, req.expectedRevision), s.items);
      } else {
        MoreCorrections(rt, t, s.tables.Get(t), s.corrections, Correction(true, req.expectedRevision), s.items);
      }
    }
    ReopenedStatus(s.row, EffectiveTarget(target));
  }

  lemma ReopenedStatus(row: Row, to: Status)
    ensures ReopenedRow(WithNet(row), to).status == to
  {}

  /** Items stored for other records or corrections do not enter a record's trail. */
  lemma {:induction false} OtherItems(items: seq<StoredItem>, more: seq<StoredItem>, c: nat, r: Ref)
    requires forall k :: 0 <= k < |more| ==> more[k].correction != c || more[k].target != Some(r)
    ensures ItemsFor(items + more, c, r) == ItemsFor(items, c, r)
  {
    if more == [] {
      assert items + more == items;
    } else {
      var init := more[..|more| - 1];
      OtherItems(items, init, c, r);
      assert (items + more)[..|items + more| - 1] == items + init;
    }
  }

  lemma {:induction false} AllItems(items: seq<StoredItem>, more: seq<StoredItem>, c: nat, r: Ref)
    requires forall k :: 0 <= k < |items| ==> items[k].target != Some(r)
    requires forall k :: 0 <= k < |more| ==> more[k].correction == c && more[k].target == Some(r)
    ensures ItemsFor(items + more, c, r) == more
  {
    if more == [] {
      OtherItems([], items, c, r);
      assert items + more == items && [] + items == items;
    } else {
      var init := more[..|more| - 1];
      AllItems(items, init, c, r);
      assert (items + more)[..|items + more| - 1] == items + init;
      assert init + [more[|more| - 1]] == more;
    }
  }

  lemma {:induction false} ReplayIsEdit(
    rt: Runtime, t: TableId, fields: map<Field, Json>, items: seq<Item>, stored: seq<StoredItem>)
    requires |stored| == |items|
    requires forall i :: 0 <= i < |items| ==>
      stored[i].field == items[i].field && stored[i].newValue == items[i].newValue
    ensures Replay(rt, t, fields, stored) == Edited(rt, t, fields, items)
  {
    if items != [] {
      ReplayIsEdit(rt, t, fields, items[..|items| - 1], stored[..|items| - 1]);
    }
  }

  lemma MoreItems(
    rt: Runtime, t: TableId, vs: seq<Version>, corrections: seq<Correction>, items: seq<StoredItem>,
    more: seq<StoredItem>)
    requires TableAudited(rt, t, vs, corrections, items)
    requires forall k :: 0 <= k < |more| ==> more[k].target.None? || more[k].target.value.table != t
    ensures TableAudited(rt, t, vs, corrections, items + more)
  {
    hide Replay, ItemsFor;
    forall i | 0 <= i < |vs| - 1 ensures PairAudited(rt, t, vs, i, corrections, items + more) {
      assert PairAudited(rt, t, vs, i, corrections, items);
      if vs[i].supersededBy.Some? {
        OtherItems(items, more, vs[i].supersededBy.value, Ref(t, i));
      }
    }
  }

  lemma SupersededPairs(
    rt: Runtime, c: nat, g: Group, vs: seq<Version>, corrections: seq<Correction>, items: seq<StoredItem>)
    requires Lineage(vs, |corrections|) && TableAudited(rt, g.ref.table, vs, corrections, items)
    requires c < |corrections| && g.ref.index < |vs| && vs[g.ref.index] == g.rec && g.rec.isCurrent
    ensures var t := g.ref.table;
      var fields := Edited(rt, t, Restrict(g.rec.fields, CopiedColumns(t)), g.items);
      PairsAudited(rt, t, vs[g.ref.index := Superseded(vs[g.ref.index], c)]
        + [Version(g.rec.revision + 1, true, None, fields)],
        corrections, items + StoredGroup(c, g, Ref(t, |vs|)))
  {
    hide Replay, ItemsFor, Edited, Restrict, CopiedColumns;
    var t := g.ref.table;
    var n := |vs| - 1;
    var fields := Edited(rt, t, Restrict(g.rec.fields, CopiedColumns(t)), g.items);
    var after := vs[g.ref.index := Superseded(vs[g.ref.index], c)] + [Version(g.rec.revision + 1, true, None, fields)];
    var stored := StoredGroup(c, g, Ref(t, |vs|));
    assert g.ref.index == n;
    forall i | 0 <= i < |after| - 1 ensures PairAudited(rt, t, after, i, corrections, items + stored) {
      if i < n {
        assert PairAudited(rt, t, vs, i, corrections, items);
        if vs[i].supersededBy.Some? {
          OtherItems(items, stored, vs[i].supersededBy.value, Ref(t, i));
        }
      } else {
        AllItems(items, stored, c, Ref(t, n));
        ReplayIsEdit(rt, t, Restrict(g.rec.fields, CopiedColumns(t)), g.items, stored);
      }
    }
  }

  lemma SupersededSettled(
    c: nat, g: Group, vs: seq<Version>, corrections: seq<Correction>, items: seq<StoredItem>, fields: map<Field, Json>)
    requires Lineage(vs, |corrections|) && TableSettled(g.ref.table, vs, corrections, items)
    requires c < |corrections| && g.ref.index < |vs| && vs[g.ref.index].isCurrent
    ensures var t := g.ref.table;
      TableSettled(t, vs[g.ref.index := Superseded(vs[g.ref.index], c)]
        + [Version(g.rec.revision + 1, true, None, fields)],
        corrections, items + StoredGroup(c, g, Ref(t, |vs|)))
  {}

  lemma SupersedeGroupKeepsAudit(rt: Runtime, c: nat, g: Group, start: Tables, db: Dossier)
    requires Lineages(db) && c < |db.corrections| && SupersedeGroup(rt, c, g, db).Ok?
    requires IsCurrentRef(start, g.ref) && g.rec == start.Get(g.ref.table)[g.ref.index] && Stable(db.tables, start)
    requires AllAudited(rt, db.tables, db.corrections, db.items)
    ensures var r := SupersedeGroup(rt, c, g, db).value; AllAudited(rt, r.tables, r.corrections, r.items)
  {
    hide Edited, RecordTaken, PairsAudited, TableSettled;
    var t := g.ref.table;
    var vs := db.tables.Get(t);
    var r := SupersedeGroup(rt, c, g, db).value;
    assert StableRows(vs, start.Get(t)) && Lineage(vs, |db.corrections|);
    assert TableAudited(rt, t, vs, db.corrections, db.items);
    SupersededPairs(rt, c, g, vs, db.corrections, db.items);
    SupersededSettled(c, g, vs, db.corrections, db.items,
      Edited(rt, t, Restrict(g.rec.fields, CopiedColumns(t)), g.items));
    forall u ensures TableAudited(rt, u, r.tables.Get(u), r.corrections, r.items) {
      assert TableAudited(rt, u, db.tables.Get(u), db.corrections, db.items);
      if u != t {
        MoreItems(rt, u, db.tables.Get(u), db.corrections, db.items, StoredGroup(c, g, Ref(t, |vs|)));
      }
    }
  }

  lemma {:induction false} SupersedeGroupsKeepAudit(rt: Runtime, c: nat, groups: seq<Group>, db: Dossier)
    requires Lineages(db) && c < |db.corrections| && SupersedeGroups(rt, c, groups, db).Ok?
    requires GroupsFresh(db.tables, groups)
    requires AllAudited(rt, db.tables, db.corrections, db.items)
    ensures var r := SupersedeGroups(rt, c, groups, db).value; AllAudited(rt, r.tables, r.corrections, r.items)
  {
    hide AllAudited, SupersedeGroup;
    if groups != [] {
      var init := groups[..|groups| - 1];
      SupersedeGroupsKeepAudit(rt, c, init, db);
      SupersedeGroupsKeep(rt, c, init, db);
      SupersedingStable(rt, c, init, db);
      SupersedeGroupKeepsAudit(rt, c, groups[|groups| - 1], db.tables, SupersedeGroups(rt, c, init, db).value);
    }
  }

  lemma HeadedKeepsAudit(rt: Runtime, req: CorrectionRequest, sorted: Sorted, s: Dossier)
    requires Lineages(s) && AllAudited(rt, s.tables, s.corrections, s.items)
    ensures var h := Headed(req, sorted, s); AllAudited(rt, h.tables, h.corrections, h.items)
  {
    hide TableAudited;
    var h := Headed(req, sorted, s);
    forall t ensures TableAudited(rt, t, h.tables.Get(t), h.corrections, h.items) {
      assert Lineage(s.tables.Get(t), |s.corrections|) && TableAudited(rt, t, s.tables.Get(t), s.corrections, s.items);
      MoreCorrections(rt, t, s.tables.Get(t), s.corrections, Correction(false, req.expectedRevision), s.items);
      MoreItems(rt, t, s.tables.Get(t), h.corrections, s.items, StoredRoots(s.row, |s.corrections|, sorted.roots));
    }
  }

  lemma DataCorrectionKeepsAudit(rt: Runtime, req: CorrectionRequest, s: Dossier)
    requires Lineages(s) && Audited(rt, s) && CorrectRecords(rt, req, s).Ok? && Terminal(s.row.status)
    ensures Audited(rt, CorrectRecords(rt, req, s).value)
  {
    hide AllAudited, SortItems, SupersedeGroups, RowChanges, HasChanges, ChangesTaken, GroupsFresh, RootsFrom, Lineages;
    var sorted := SortItems(rt, s.tables, req.lastWeighbridge, req.items).value;
    HeadedKeepsLineages(req, sorted, s);
    HeadedKeepsAudit(rt, req, sorted, s);
    SortItemsFresh(rt, s.tables, req.lastWeighbridge, req.items);
    SupersedeGroupsKeepAudit(rt, |s.corrections|, sorted.groups, Headed(req, sorted, s));
  }

  /**
   * In every run each record made by a correction is what replaying the stored items, in order and with the
   * code's coercions, makes of the columns copied from the record it replaced; nothing edits it later.
   */
  lemma {:induction false} RunAudited(rt: Runtime, pt: ProcessType, info: map<Field, Json>, reqs: seq<Request>)
    ensures Audited(rt, Run(rt, NewDossier(pt, info), reqs))
  {
    hide Audited, Lineages, Staged, ApplyForward, CorrectRecords, Reopen;
    if reqs == [] {
      FreshAudited(rt, pt, info);
    } else {
      var init := reqs[..|reqs| - 1];
      var req := reqs[|reqs| - 1];
      var before := Run(rt, NewDossier(pt, info), init);
      RunAudited(rt, pt, info, init);
      RunStaged(rt, pt, info, init);
      AfterKeepsAudit(rt, req, before);
    }
  }

  lemma FreshAudited(rt: Runtime, pt: ProcessType, info: map<Field, Json>)
    ensures Audited(rt, NewDossier(pt, info))
  {}

  lemma AfterKeepsAudit(rt: Runtime, req: Request, s: Dossier)
    requires Lineages(s) && Staged(s) && Audited(rt, s)
    ensures Audited(rt, After(rt, s, req))
  {
    hide Audited, Lineages, Staged, ReadForward, CommitForward, CorrectRecords, Reopen;
    if Apply(rt, req, s).Ok? {
      match req
      case Move(f) => ForwardKeepsAudit(rt, f, s);
      case Correct(c) =>
        if c.action == ReopenWorkflow {
          ReopenKeepsAudit(rt, c, c.reopenTarget.value, s);
        } else {
          DataCorrectionKeepsAudit(rt, c, s);
        }
    }
  }

  // ----- Old values -----

  /** A stored item says what the record it names held, which superseded it and which record came in its place. */
  ghost predicate ItemTrue(tables: Tables, item: StoredItem) {
    match item.target
    case None => item.replacement.None?
    case Some(r) =>
      var vs := tables.Get(r.table);
      && r.index + 1 < |vs| && item.replacement == Some(Ref(r.table, r.index + 1))
      && vs[r.index].supersededBy == Some(item.correction) && !vs[r.index].isCurrent
      && item.oldValue == FieldOf(vs[r.index].fields, item.field)
  }

  ghost predicate ItemsTrue(tables: Tables, items: seq<StoredItem>) {
    forall k :: 0 <= k < |items| ==> ItemTrue(tables, items[k])
  }

  lemma TrueStays(after: Tables, before: Tables, items: seq<StoredItem>)
    requires TablesExtend(after, before) && ItemsTrue(before, items)
    ensures ItemsTrue(after, items)
  {
    hide FieldOf;
    forall k | 0 <= k < |items| ensures ItemTrue(after, items[k]) {
      assert ItemTrue(before, items[k]);
      if items[k].target.Some? {
        var t := items[k].target.value.table;
        assert Extends(after.Get(t), before.Get(t));
      }
    }
  }

  lemma TrueJoin(tables: Tables, a: seq<StoredItem>, b: seq<StoredItem>)
    requires ItemsTrue(tables, a) && ItemsTrue(tables, b)
    ensures ItemsTrue(tables, a + b)
  {
    hide ItemTrue;
  }

  lemma GroupItemsTrue(rt: Runtime, c: nat, g: Group, start: Dossier, db: Dossier)
    requires Lineages(db) && c < |db.corrections| && SupersedeGroup(rt, c, g, db).Ok? && ItemsTrue(db.tables, db.items)
    requires IsCurrentRef(start.tables, g.ref) && g.rec == start.tables.Get(g.ref.table)[g.ref.index]
    requires Stable(db.tables, start.tables)
    ensures var r := SupersedeGroup(rt, c, g, db).value; ItemsTrue(r.tables, r.items)
  {
    hide Edited, RecordTaken, Restrict, CopiedColumns, FieldOf, Stable, ItemsTrue;
    var r := SupersedeGroup(rt, c, g, db).value;
    GroupStillLast(rt, c, g, start, db);
    SupersedeGroupKeeps(rt, c, g, db);
    TrueStays(r.tables, db.tables, db.items);
    var t := g.ref.table;
    var stored := StoredGroup(c, g, Ref(t, |db.tables.Get(t)|));
    StoredTrue(r.tables, c, g, |db.tables.Get(t)|);
    TrueJoin(r.tables, db.items, stored);
  }

  lemma StoredTrue(tables: Tables, c: nat, g: Group, n: nat)
    requires var vs := tables.Get(g.ref.table);
      && n == g.ref.index + 1 && |vs| == n + 1
      && vs[g.ref.index] == Superseded(g.rec, c)
    ensures ItemsTrue(tables, StoredGroup(c, g, Ref(g.ref.table, n)))
  {
    hide FieldOf;
  }

  lemma {:induction false} GroupsItemsTrue(rt: Runtime, c: nat, groups: seq<Group>, db: Dossier)
    requires Lineages(db) && c < |db.corrections| && SupersedeGroups(rt, c, groups, db).Ok?
    requires GroupsFresh(db.tables, groups) && ItemsTrue(db.tables, db.items)
    ensures var r := SupersedeGroups(rt, c, groups, db).value; ItemsTrue(r.tables, r.items)
  {
    hide SupersedeGroup, ItemsTrue, Lineages, Stable;
    if groups != [] {
      var init := groups[..|groups| - 1];
      GroupsItemsTrue(rt, c, init, db);
      SupersedeGroupsKeep(rt, c, init, db);
      SupersedingStable(rt, c, init, db);
      GroupItemsTrue(rt, c, groups[|groups| - 1], db, SupersedeGroups(rt, c, init, db).value);
    }
  }

  lemma RootItemsTrue(tables: Tables, row: Row, c: nat, roots: seq<Item>)
    ensures ItemsTrue(tables, StoredRoots(row, c, roots))
  {}

  lemma CorrectionItemsTrue(rt: Runtime, req: CorrectionRequest, s: Dossier)
    requires Lineages(s) && ItemsTrue(s.tables, s.items) && CorrectRecords(rt, req, s).Ok?
    ensures var after := CorrectRecords(rt, req, s).value; ItemsTrue(after.tables, after.items)
  {
    hide SortItems, SupersedeGroups, RowChanges, HasChanges, ChangesTaken, GroupsFresh, RootsFrom, Lineages, ItemsTrue,
         StoredRoots, ChangedRow, GrossUnderTare, StartsAfterEnd, WithNet, FraudAfter;
    var sorted := SortItems(rt, s.tables, req.lastWeighbridge, req.items).value;
    var headed := Headed(req, sorted, s);
    HeadedKeepsLineages(req, sorted, s);
    SortItemsFresh(rt, s.tables, req.lastWeighbridge, req.items);
    RootItemsTrue(s.tables, s.row, |s.corrections|, sorted.roots);
    TrueJoin(s.tables, s.items, StoredRoots(s.row, |s.corrections|, sorted.roots));
    GroupsItemsTrue(rt, |s.corrections|, sorted.groups, headed);
  }

  /**
   * In every run each stored item names a record superseded by its own correction, its old value is what that record
   * still holds, and its replacement is the next revision.
   */
  lemma {:induction false} RunItemsTrue(rt: Runtime, pt: ProcessType, info: map<Field, Json>, reqs: seq<Request>)
    ensures var s := Run(rt, NewDossier(pt, info), reqs); ItemsTrue(s.tables, s.items)
  {
    hide Lineages, Staged, ItemsTrue, ApplyForward, CorrectRecords, Reopen, ReadForward, CommitForward, TablesExtend;
    if reqs == [] {
      NoItems(NewDossier(pt, info).tables);
    } else {
      var init, req := reqs[..|reqs| - 1], reqs[|reqs| - 1];
      var before := Run(rt, NewDossier(pt, info), init);
      RunItemsTrue(rt, pt, info, init);
      RunStaged(rt, pt, info, init);
      if Apply(rt, req, before).Ok? {
        ApplyKeepsStage(rt, req, before);
        var after := Apply(rt, req, before).value;
        if req.Correct? && req.correction.action != ReopenWorkflow {
          CorrectionItemsTrue(rt, req.correction, before);
        } else {
          TrueStays(after.tables, before.tables, before.items);
          ItemsStay(rt, req, before);
        }
      }
    }
  }

  lemma NoItems(tables: Tables)
    ensures ItemsTrue(tables, [])
  {}

  /** Only a data correction stores items. */
  lemma ItemsStay(rt: Runtime, req: Request, s: Dossier)
    requires Apply(rt, req, s).Ok? && (req.Correct? ==> req.correction.action == ReopenWorkflow)
    ensures Apply(rt, req, s).value.items == s.items
  {
    hide CorrectRecords, HasCurrent, CurrentAt, Inserted, FinishedProcess, Annotated, VehicleRecord, VehicleVerdict,
         Measured, KnownInWeight, Assess, ClearedTables, FraudAfter, ReopenedRow, WithNet;
  }

  /** An item on the row itself is stored with what the row showed before the correction. */
  lemma RootItemStored(rt: Runtime, req: CorrectionRequest, s: Dossier, i: nat)
    requires CorrectRecords(rt, req, s).Ok? && i < |SortedOf(rt, req, s).roots|
    ensures var after, root := CorrectRecords(rt, req, s).value.items, SortedOf(rt, req, s).roots[i];
      && |s.items| + i < |after| && after[..|s.items|] == s.items
      && after[|s.items| + i] == StoredItem(|s.corrections|, root.targetModule, None, None, root.field,
                                            Column(s.row, root.field), root.newValue)
  {
    hide SortItems, SupersedeGroups, RowChanges, HasChanges, ChangesTaken, ChangedRow, GrossUnderTare, StartsAfterEnd,
         WithNet, FraudAfter, Column;
    var sorted := SortedOf(rt, req, s);
    var headed := Headed(req, sorted, s);
    ItemsGrow(rt, |s.corrections|, sorted.groups, headed);
    assert headed.items[|s.items| + i] == StoredRoots(s.row, |s.corrections|, sorted.roots)[i];
    assert headed.items[..|s.items|] == s.items;
  }

  lemma {:induction false} ItemsGrow(rt: Runtime, c: nat, groups: seq<Group>, db: Dossier)
    requires SupersedeGroups(rt, c, groups, db).Ok?
    ensures db.items <= SupersedeGroups(rt, c, groups, db).value.items
  {
    hide RecordTaken, Edited, StoredGroup, Restrict, CopiedColumns;
    if groups != [] {
      ItemsGrow(rt, c, groups[..|groups| - 1], db);
    }
  }

  lemma {:induction false} EditingAddsNamed(
    rt: Runtime, t: TableId, fields: map<Field, Json>, items: seq<Item>, f: Field)
    requires f !in fields && forall i :: 0 <= i < |items| ==> items[i].field != f
    ensures f !in Edited(rt, t, fields, items)
  {
    hide Coerced;
    if items != [] {
      EditingAddsNamed(rt, t, fields, items[..|items| - 1], f);
    }
  }

  lemma DecisionNeverNamed(f: Field)
    requires f == DecisionMode || f == HasDeviation || f == DeviationReason
    ensures f !in Allowlist(VehicleModule) && f !in CopiedColumns(VehicleChecks)
  {}

  /** A corrected vehicle check keeps none of the decision columns, whatever the items. */
  lemma DecisionColumnsDropped(rt: Runtime, fields: map<Field, Json>, items: seq<Item>, f: Field)
    requires forall i :: 0 <= i < |items| ==> items[i].field in Allowlist(VehicleModule)
    requires f == DecisionMode || f == HasDeviation || f == DeviationReason
    ensures f !in Edited(rt, VehicleChecks, Restrict(fields, CopiedColumns(VehicleChecks)), items)
  {
    hide Allowlist, CopiedColumns, Edited;
    DecisionNeverNamed(f);
    EditingAddsNamed(rt, VehicleChecks, Restrict(fields, CopiedColumns(VehicleChecks)), items, f);
  }

  // ----- One record under two names -----

  ghost predicate HasGroup(groups: seq<Group>, m: TargetModule, r: Ref) {
    exists k :: 0 <= k < |groups| && groups[k].targetModule == m && groups[k].ref == r
  }

  lemma GroupedHas(groups: seq<Group>, m: TargetModule, r: Ref, rec: Version, it: Item)
    ensures HasGroup(Grouped(groups, m, r, rec, it), m, r)
    ensures forall n, q :: HasGroup(groups, n, q) ==> HasGroup(Grouped(groups, m, r, rec, it), n, q)
  {
    var after := Grouped(groups, m, r, rec, it);
    var k := FindGroup(groups, m, r);
    var at := if k.Some? then k.value else |groups|;
    assert after[at].targetModule == m && after[at].ref == r;
    forall n, q | HasGroup(groups, n, q) ensures HasGroup(after, n, q) {
      var w :| 0 <= w < |groups| && groups[w].targetModule == n && groups[w].ref == q;
      assert after[w].targetModule == n && after[w].ref == q;
    }
  }

  /** Sorting succeeds only if every item that names a record got a group of its own module for it. */
  lemma {:induction false} SortedHas(rt: Runtime, tables: Tables, last: TableId, items: seq<Item>, i: nat)
    requires SortItems(rt, tables, last, items).Ok?
    requires i < |items| && !IsRoot(items[i].targetModule)
    ensures TargetRef(tables, items[i], last).Some?
    ensures HasGroup(SortItems(rt, tables, last, items).value.groups, items[i].targetModule,
      TargetRef(tables, items[i], last).value)
  {
    hide Grouped, HasGroup, DomainValid, Allowlist;
    var init, it := items[..|items| - 1], Normalized(items[|items| - 1]);
    var acc := SortItems(rt, tables, last, init).value;
    if !IsRoot(it.targetModule) {
      var r := TargetRef(tables, it, last).value;
      GroupedHas(acc.groups, it.targetModule, r, tables.Get(r.table)[r.index], it);
    }
    if i < |items| - 1 {
      SortedHas(rt, tables, last, init, i);
    }
  }

  /**
   * A correction that names one incoming record both as a QC material record and as an incoming material record
   * is refused, so nothing changes.
   */
  lemma OneRecordTwoNames(rt: Runtime, req: CorrectionRequest, s: Dossier, i: nat, j: nat)
    requires i < |req.items| && j < |req.items|
    requires req.items[i].targetModule == QcMaterialModule && req.items[j].targetModule == IncomingMaterialModule
    requires TargetRef(s.tables, req.items[i], req.lastWeighbridge) ==
      TargetRef(s.tables, req.items[j], req.lastWeighbridge)
    ensures Apply(rt, Correct(req), s).Err? && After(rt, s, Correct(req)) == s
  {
    hide SortItems, SupersedeGroups, TargetRef, RowChanges, HasChanges, ChangesTaken;
    if ReadCorrection(req).None? && CommitCorrection(rt, req, s).Ok? {
      var sorted := SortItems(rt, s.tables, req.lastWeighbridge, req.items).value;
      SortedHas(rt, s.tables, req.lastWeighbridge, req.items, i);
      SortedHas(rt, s.tables, req.lastWeighbridge, req.items, j);
      SupersededOnce(rt, |s.corrections|, sorted.groups, Headed(req, sorted, s));
      assert false;
    }
  }
}
