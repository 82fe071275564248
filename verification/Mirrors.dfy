/**
 * Columns of the row that mirror a column of a current child record, and what a correction does to both: the record's
 * own items write the record and the row, the items on the row itself write only the row.
 */
module Mirrors {
  import opened Prelude
  import opened Workflow
  import opened Records
  import opened Steps
  import opened Corrections
  import opened Stages

  datatype Mirror = InMirror | OutMirror | WeightMirror | QuantityMirror | UnitMirror | StartMirror | EndMirror

  function TableOf(k: Mirror): TableId {
    match k
    case InMirror => InWeights
    case OutMirror => OutWeights
    case _ => Warehousing
  }

  /** The column of the record. */
  function FieldIn(k: Mirror): Field {
    match k
    case InMirror => Weight
    case OutMirror => Weight
    case WeightMirror => ActualWeight
    case QuantityMirror => ActualQuantity
    case UnitMirror => Unit
    case StartMirror => StartAt
    case EndMirror => EndAt
  }

  /** The column of the row: a truck loaded with finished goods weighs its tare on the way in. */
  function ColumnOn(pt: ProcessType, k: Mirror): Field {
    match k
    case InMirror => if pt == GBJ then TareWeight else GrossWeight
    case OutMirror => if pt == GBJ then GrossWeight else TareWeight
    case WeightMirror => ActualWeight
    case QuantityMirror => ActualQuantity
    case UnitMirror => WarehouseUnit
    case StartMirror => WarehouseStartAt
    case EndMirror => WarehouseEndAt
  }

  predicate NumberColumn(f: Field) {
    || f == Weight || f == ActualWeight || f == ActualQuantity || f == PalletCount || f == BagCount || f == RollCount
    || f == Moisture || f == ForeignMatter || f == SampleWeight || f == GoodBeanPercentage
  }

  predicate TextColumn(f: Field) {
    f == TicketNumber || f == Remarks || f == Notes || f == DefectNotes
  }

  /**
   * What a value sent for a column of a record is stored as, whatever the table: a number, a time, a text, or as sent.
   */
  function StoredIn(rt: Runtime, f: Field, v: Json): Json {
    if NumberColumn(f) then OptNum(ToNumber(rt, v))
    else if f == StartAt || f == EndAt then OptDate(rt.date(v))
    else if TextColumn(f) then Text(rt.text(v))
    else v
  }

  function Stored(rt: Runtime, k: Mirror, v: Json): Json {
    StoredIn(rt, FieldIn(k), v)
  }

  function RowValue(row: Row, k: Mirror): Json {
    Column(row, ColumnOn(row.processType, k))
  }

  /** A column of the current record of a table. */
  function ValueIn(tables: Tables, t: TableId, f: Field): Json
    requires HasCurrent(tables.Get(t))
  {
    FieldOf(tables.Get(t)[CurrentAt(tables.Get(t)).value].fields, f)
  }

  function RecordValue(tables: Tables, k: Mirror): Json
    requires HasCurrent(tables.Get(TableOf(k)))
  {
    ValueIn(tables, TableOf(k), FieldIn(k))
  }

  /** The current record, if there is one, and the row say the same. */
  predicate Agrees(s: Dossier, k: Mirror) {
    HasCurrent(s.tables.Get(TableOf(k))) ==> RecordValue(s.tables, k) == RowValue(s.row, k)
  }

  // ----- What a request writes, read off its items -----

  /** What the last item written straight to a column of the row writes there. */
  function LastRootOn(items: seq<Item>, f: Field): Option<Json> {
    if items == [] then None
    else
      var it := items[|items| - 1];
      if IsRoot(it.targetModule) && it.field == f then Some(it.newValue) else LastRootOn(items[..|items| - 1], f)
  }

  /** An item of the request edits a column of the current record of a table. */
  predicate Edits(tables: Tables, last: TableId, it: Item, t: TableId, f: Field) {
    it.field == f && TargetRef(tables, it, last).Some? && TargetRef(tables, it, last).value.table == t
  }

  /** What the last such item sends, a verdict in its stored word. */
  function LastEditOn(tables: Tables, last: TableId, items: seq<Item>, t: TableId, f: Field): Option<Json> {
    if items == [] then None
    else
      var it := items[|items| - 1];
      if Edits(tables, last, it, t, f) then Some(Normalized(it).newValue)
      else LastEditOn(tables, last, items[..|items| - 1], t, f)
  }

  function LastEdit(tables: Tables, last: TableId, items: seq<Item>, k: Mirror): Option<Json> {
    LastEditOn(tables, last, items, TableOf(k), FieldIn(k))
  }

  /**
   * No record, no value written straight to the row, the record edited as well, or a value that repeats the record's.
   */
  predicate KeepsMirror(req: CorrectionRequest, s: Dossier, k: Mirror) {
    var root := LastRootOn(req.items, ColumnOn(s.row.processType, k));
    HasCurrent(s.tables.Get(TableOf(k))) && root.Some? ==>
      LastEdit(s.tables, req.lastWeighbridge, req.items, k).Some? || root.value == RecordValue(s.tables, k)
  }

  // ----- The groups of a request -----

  /** Groups name current records and hold them as they are. */
  ghost predicate GroupsFresh(tables: Tables, groups: seq<Group>) {
    forall k :: 0 <= k < |groups| ==>
      && IsCurrentRef(tables, groups[k].ref)
      && groups[k].rec == tables.Get(groups[k].ref.table)[groups[k].ref.index]
      && ModuleCovers(groups[k].targetModule, groups[k].ref.table)
  }

  ghost predicate RootsFrom(roots: seq<Item>, items: seq<Item>) {
    forall k :: 0 <= k < |roots| ==>
      && IsRoot(roots[k].targetModule) && roots[k].field in Allowlist(roots[k].targetModule)
      && exists i ::
           0 <= i < |items| && items[i].targetModule == roots[k].targetModule && items[i].field == roots[k].field
  }

  lemma SortItemFresh(rt: Runtime, tables: Tables, last: TableId, acc: Sorted, items: seq<Item>)
    requires items != [] && GroupsFresh(tables, acc.groups) && RootsFrom(acc.roots, items[..|items| - 1])
    requires SortItem(rt, tables, last, acc, items[|items| - 1]).Ok?
    ensures var r := SortItem(rt, tables, last, acc, items[|items| - 1]).value;
      GroupsFresh(tables, r.groups) && RootsFrom(r.roots, items)
  {
    var raw := items[|items| - 1];
    var r := SortItem(rt, tables, last, acc, raw).value;
    assert Normalized(raw).field == raw.field && Normalized(raw).targetModule == raw.targetModule;
    forall k | 0 <= k < |r.roots|
      ensures IsRoot(r.roots[k].targetModule) && r.roots[k].field in Allowlist(r.roots[k].targetModule)
      ensures exists i ::
        0 <= i < |items| && items[i].targetModule == r.roots[k].targetModule && items[i].field == r.roots[k].field
    {
      if k < |acc.roots| {
        assert r.roots[k] == acc.roots[k];
        var i :| 0 <= i < |items| - 1 && items[..|items| - 1][i].targetModule == acc.roots[k].targetModule
          && items[..|items| - 1][i].field == acc.roots[k].field;
        assert items[i] == items[..|items| - 1][i];
      } else {
        assert items[|items| - 1] == raw;
      }
    }
  }

  lemma {:induction false} SortItemsFresh(rt: Runtime, tables: Tables, last: TableId, items: seq<Item>)
    requires SortItems(rt, tables, last, items).Ok?
    ensures var r := SortItems(rt, tables, last, items).value;
      GroupsFresh(tables, r.groups) && RootsFrom(r.roots, items)
  {
    if items != [] {
      var init := items[..|items| - 1];
      SortItemsFresh(rt, tables, last, init);
      SortItemFresh(rt, tables, last, SortItems(rt, tables, last, init).value, items);
    }
  }

  lemma NormalizedTarget(tables: Tables, it: Item, last: TableId)
    ensures TargetRef(tables, Normalized(it), last) == TargetRef(tables, it, last)
    ensures Normalized(it).field == it.field && Normalized(it).targetModule == it.targetModule
    ensures it.field != CheckOutcome ==> Normalized(it) == it
  {}

  lemma {:induction false} SortedRoots(rt: Runtime, tables: Tables, last: TableId, items: seq<Item>, f: Field)
    requires SortItems(rt, tables, last, items).Ok? && f != CheckOutcome
    ensures var changes := RootChanges(SortItems(rt, tables, last, items).value.roots);
      LastRootOn(items, f) == if f in changes then Some(changes[f]) else None
  {
    hide SortItem, Normalized;
    if items != [] {
      var init, raw := items[..|items| - 1], items[|items| - 1];
      SortedRoots(rt, tables, last, init, f);
      NormalizedTarget(tables, raw, last);
      var acc := SortItems(rt, tables, last, init).value;
      SortedItemRoots(rt, tables, last, acc, raw);
      assert (acc.roots + [Normalized(raw)])[..|acc.roots|] == acc.roots;
    }
  }

  lemma SortedItemRoots(rt: Runtime, tables: Tables, last: TableId, acc: Sorted, raw: Item)
    requires SortItem(rt, tables, last, acc, raw).Ok?
    ensures SortItem(rt, tables, last, acc, raw).value.roots ==
      if IsRoot(raw.targetModule) then acc.roots + [Normalized(raw)] else acc.roots
  {
    hide Grouped, DomainValid, Allowlist, TargetRef, Normalized;
    NormalizedTarget(tables, raw, last);
  }

  lemma SortedOk(rt: Runtime, req: CorrectionRequest, s: Dossier)
    requires CorrectRecords(rt, req, s).Ok?
    ensures SortItems(rt, s.tables, req.lastWeighbridge, req.items).Ok?
  {}

  function SortedOf(rt: Runtime, req: CorrectionRequest, s: Dossier): Sorted
    requires CorrectRecords(rt, req, s).Ok?
  {
    SortItems(rt, s.tables, req.lastWeighbridge, req.items).value
  }

  // ----- Records that are still current -----

  /** A record is still current only if nothing happened to it. */
  ghost predicate StableRows(after: seq<Version>, before: seq<Version>) {
    && |before| <= |after|
    && forall i :: 0 <= i < |before| ==> after[i] == before[i] || !after[i].isCurrent
  }

  ghost predicate Stable(after: Tables, before: Tables) {
    forall t :: StableRows(after.Get(t), before.Get(t))
  }

  lemma SupersedeGroupStable(rt: Runtime, c: nat, g: Group, db: Dossier)
    requires SupersedeGroup(rt, c, g, db).Ok?
    ensures Stable(SupersedeGroup(rt, c, g, db).value.tables, db.tables)
  {
    hide Edited, RecordTaken;
  }

  lemma StableTransitive(a: Tables, b: Tables, c: Tables)
    requires Stable(b, a) && Stable(c, b)
    ensures Stable(c, a)
  {
    forall t ensures StableRows(c.Get(t), a.Get(t)) {
      assert StableRows(b.Get(t), a.Get(t)) && StableRows(c.Get(t), b.Get(t));
    }
  }

  lemma {:induction false} SupersedingStable(rt: Runtime, c: nat, groups: seq<Group>, db: Dossier)
    requires SupersedeGroups(rt, c, groups, db).Ok?
    ensures Stable(SupersedeGroups(rt, c, groups, db).value.tables, db.tables)
  {
    if groups != [] {
      var before := SupersedeGroups(rt, c, groups[..|groups| - 1], db).value;
      SupersedingStable(rt, c, groups[..|groups| - 1], db);
      SupersedeGroupStable(rt, c, groups[|groups| - 1], before);
      StableTransitive(db.tables, before.tables, SupersedeGroups(rt, c, groups, db).value.tables);
    }
  }

  lemma GroupStillLast(rt: Runtime, c: nat, g: Group, start: Dossier, db: Dossier)
    requires Lineages(db) && SupersedeGroup(rt, c, g, db).Ok?
    requires IsCurrentRef(start.tables, g.ref) && g.rec == start.tables.Get(g.ref.table)[g.ref.index]
    requires Stable(db.tables, start.tables)
    ensures var vs := db.tables.Get(g.ref.table); g.ref.index == |vs| - 1 && vs[g.ref.index] == g.rec
  {
    hide Edited, RecordTaken, StoredGroup;
    assert Lineage(db.tables.Get(g.ref.table), |db.corrections|);
    assert StableRows(db.tables.Get(g.ref.table), start.tables.Get(g.ref.table));
  }

  // ----- What the groups write -----

  /** The value of the last item on a field. */
  function LastOn(items: seq<Item>, f: Field): Option<Json> {
    if items == [] then None
    else if items[|items| - 1].field == f then Some(items[|items| - 1].newValue)
    else LastOn(items[..|items| - 1], f)
  }

  /** The same over the groups on records of one table. */
  function GroupsLast(groups: seq<Group>, t: TableId, f: Field): Option<Json> {
    if groups == [] then None
    else
      var g := groups[|groups| - 1];
      if g.ref.table == t && LastOn(g.items, f).Some? then LastOn(g.items, f)
      else GroupsLast(groups[..|groups| - 1], t, f)
  }

  /** Column c holds w, or is untouched when there is nothing to write. */
  predicate Writes(after: map<Field, Json>, before: map<Field, Json>, c: Field, w: Option<Json>) {
    if w.Some? then c in after && after[c] == w.value
    else (c in after <==> c in before) && (c in after ==> after[c] == before[c])
  }

  function StoredOpt(rt: Runtime, k: Mirror, v: Option<Json>): Option<Json> {
    if v.Some? then Some(Stored(rt, k, v.value)) else None
  }

  lemma ItemWrites(rt: Runtime, pt: ProcessType, t: TableId, changes: map<Field, Json>, it: Item, k: Mirror)
    ensures Writes(ItemChanges(rt, pt, t, changes, it), changes, ColumnOn(pt, k),
      if t == TableOf(k) && it.field == FieldIn(k) then Some(Stored(rt, k, it.newValue)) else None)
  {
    hide ToNumber, OptNum, OptDate;
  }

  lemma {:induction false} RecordWrites(
    rt: Runtime, pt: ProcessType, t: TableId, changes: map<Field, Json>, items: seq<Item>, k: Mirror)
    ensures Writes(RecordChanges(rt, pt, t, changes, items), changes, ColumnOn(pt, k),
      if t == TableOf(k) then StoredOpt(rt, k, LastOn(items, FieldIn(k))) else None)
  {
    hide ItemChanges, Stored, ColumnOn, TableOf, FieldIn;
    if items != [] {
      var init := items[..|items| - 1];
      RecordWrites(rt, pt, t, changes, init, k);
      ItemWrites(rt, pt, t, RecordChanges(rt, pt, t, changes, init), items[|items| - 1], k);
    }
  }

  /** A mirrored column of the row takes what the last item on a record of its table sends, stored as its type asks. */
  lemma {:induction false} GroupsWrite(
    rt: Runtime, pt: ProcessType, changes: map<Field, Json>, groups: seq<Group>, k: Mirror)
    ensures Writes(GroupChanges(rt, pt, changes, groups), changes, ColumnOn(pt, k),
      StoredOpt(rt, k, GroupsLast(groups, TableOf(k), FieldIn(k))))
  {
    hide RecordChanges, Stored, ColumnOn, TableOf, FieldIn, LastOn;
    if groups != [] {
      var init, g := groups[..|groups| - 1], groups[|groups| - 1];
      GroupsWrite(rt, pt, changes, init, k);
      RecordWrites(rt, pt, g.ref.table, GroupChanges(rt, pt, changes, init), g.items, k);
    }
  }

  // ----- Sorting keeps the last item last -----

  ghost predicate DistinctRefs(groups: seq<Group>) {
    forall i, j :: 0 <= i < j < |groups| ==> groups[i].ref != groups[j].ref
  }

  /** Whatever names a record of the table names this one. */
  ghost predicate OneRef(groups: seq<Group>, t: TableId, r: Ref) {
    forall i :: 0 <= i < |groups| && groups[i].ref.table == t ==> groups[i].ref == r
  }

  lemma {:induction false} OnlyGroup(groups: seq<Group>, k: nat, t: TableId, f: Field)
    requires k < |groups| && forall i :: 0 <= i < |groups| ==> (groups[i].ref.table == t <==> i == k)
    ensures GroupsLast(groups, t, f) == LastOn(groups[k].items, f)
  {
    hide LastOn;
    if k == |groups| - 1 {
      NoGroup(groups[..k], t, f);
    } else {
      OnlyGroup(groups[..|groups| - 1], k, t, f);
    }
  }

  lemma {:induction false} NoGroup(groups: seq<Group>, t: TableId, f: Field)
    requires forall i :: 0 <= i < |groups| ==> groups[i].ref.table != t
    ensures GroupsLast(groups, t, f).None?
  {
    if groups != [] {
      NoGroup(groups[..|groups| - 1], t, f);
    }
  }

  lemma GroupsLastSnoc(groups: seq<Group>, g: Group, t: TableId, f: Field)
    ensures GroupsLast(groups + [g], t, f) ==
      if g.ref.table == t && LastOn(g.items, f).Some? then LastOn(g.items, f) else GroupsLast(groups, t, f)
  {
    hide LastOn;
    assert (groups + [g])[..|groups|] == groups;
  }

  lemma {:induction false} OtherGroup(groups: seq<Group>, k: nat, g: Group, t: TableId, f: Field)
    requires k < |groups| && groups[k].ref.table != t && g.ref.table != t
    ensures GroupsLast(groups[k := g], t, f) == GroupsLast(groups, t, f)
  {
    hide LastOn, GroupsLast;
    var n := |groups| - 1;
    GroupsLastSnoc(groups[..n], groups[n], t, f);
    assert groups[..n] + [groups[n]] == groups;
    if k < n {
      OtherGroup(groups[..n], k, g, t, f);
      GroupsLastSnoc(groups[..n][k := g], groups[n], t, f);
      assert groups[..n][k := g] + [groups[n]] == groups[k := g];
    } else {
      GroupsLastSnoc(groups[..n], g, t, f);
      assert groups[..n] + [g] == groups[k := g];
    }
  }

  lemma LastOnSnoc(items: seq<Item>, it: Item, f: Field)
    ensures LastOn(items + [it], f) == if it.field == f then Some(it.newValue) else LastOn(items, f)
  {
    assert (items + [it])[..|items|] == items;
  }

  lemma GroupedLast(groups: seq<Group>, m: TargetModule, r: Ref, rec: Version, it: Item, t: TableId, f: Field)
    requires DistinctRefs(groups) && (r.table == t ==> OneRef(groups, t, r))
    ensures GroupsLast(Grouped(groups, m, r, rec, it), t, f) ==
      if r.table == t && it.field == f then Some(it.newValue) else GroupsLast(groups, t, f)
  {
    hide LastOn, FindGroup;
    var after, at := Grouped(groups, m, r, rec, it), FindGroup(groups, m, r);
    if at.None? {
      assert after[..|groups|] == groups;
      LastOnSnoc([], it, f);
      assert [] + [it] == [it] && LastOn([], f).None? by {
        LastOnEmpty(f);
      }
    } else if r.table == t {
      var k := at.value;
      LastOnSnoc(groups[k].items, it, f);
      OnlyGroup(groups, k, t, f);
      OnlyGroup(after, k, t, f);
    } else {
      OtherGroup(groups, at.value, after[at.value], t, f);
    }
  }

  lemma LastOnEmpty(f: Field)
    ensures LastOn([], f).None?
  {}

  lemma GroupedDistinct(groups: seq<Group>, m: TargetModule, r: Ref, rec: Version, it: Item)
    requires DistinctRefs(Grouped(groups, m, r, rec, it))
    ensures DistinctRefs(groups)
  {
    hide FindGroup;
    var after := Grouped(groups, m, r, rec, it);
    assert forall i :: 0 <= i < |groups| ==> after[i].ref == groups[i].ref;
  }

  /** Only one record of a lineage is current. */
  lemma FreshOneRef(tables: Tables, n: nat, groups: seq<Group>, t: TableId, r: Ref)
    requires Lineage(tables.Get(t), n) && GroupsFresh(tables, groups) && r.table == t && IsCurrentRef(tables, r)
    ensures OneRef(groups, t, r)
  {}

  /** The groups write what the last item of the request that edits the record sends. */
  lemma {:induction false} SortedLast(
    rt: Runtime, tables: Tables, n: nat, last: TableId, items: seq<Item>, t: TableId, f: Field)
    requires SortItems(rt, tables, last, items).Ok? && Lineage(tables.Get(t), n)
    requires DistinctRefs(SortItems(rt, tables, last, items).value.groups)
    ensures GroupsLast(SortItems(rt, tables, last, items).value.groups, t, f) ==
      LastEditOn(tables, last, items, t, f)
  {
    hide Grouped, DomainValid, Allowlist, TargetRef, Normalized, DistinctRefs, OneRef, GroupsFresh, Lineage;
    if items != [] {
      var init, raw := items[..|items| - 1], items[|items| - 1];
      SortedItemDistinct(rt, tables, last, SortItems(rt, tables, last, init).value, raw);
      SortedLast(rt, tables, n, last, init, t, f);
      SortItemsFresh(rt, tables, last, init);
      SortedItemLast(rt, tables, n, last, SortItems(rt, tables, last, init).value, raw, t, f);
      hide SortItem;
    }
  }

  lemma SortedItemDistinct(rt: Runtime, tables: Tables, last: TableId, acc: Sorted, raw: Item)
    requires SortItem(rt, tables, last, acc, raw).Ok?
    requires DistinctRefs(SortItem(rt, tables, last, acc, raw).value.groups)
    ensures DistinctRefs(acc.groups)
  {
    hide SortItem, Grouped, TargetRef, Normalized, DistinctRefs;
    SortedItemGroups(rt, tables, last, acc, raw);
    if !IsRoot(raw.targetModule) {
      var r := TargetRef(tables, raw, last).value;
      GroupedDistinct(acc.groups, raw.targetModule, r, tables.Get(r.table)[r.index], Normalized(raw));
    }
  }

  lemma SortedItemLast(
    rt: Runtime, tables: Tables, n: nat, last: TableId, acc: Sorted, raw: Item, t: TableId, f: Field)
    requires SortItem(rt, tables, last, acc, raw).Ok? && Lineage(tables.Get(t), n)
    requires GroupsFresh(tables, acc.groups) && DistinctRefs(acc.groups)
    ensures GroupsLast(SortItem(rt, tables, last, acc, raw).value.groups, t, f) ==
      if Edits(tables, last, raw, t, f) then Some(Normalized(raw).newValue) else GroupsLast(acc.groups, t, f)
  {
    hide *;
    SortedItemGroups(rt, tables, last, acc, raw);
    EditsMeaning(tables, last, raw, t, f);
    if !IsRoot(raw.targetModule) {
      var r := TargetRef(tables, raw, last).value;
      JoinedLast(tables, n, acc.groups, raw.targetModule, r, Normalized(raw), t, f);
    }
  }

  lemma EditsMeaning(tables: Tables, last: TableId, it: Item, t: TableId, f: Field)
    ensures IsRoot(it.targetModule) ==> !Edits(tables, last, it, t, f)
    ensures TargetRef(tables, it, last).Some? ==>
      (Edits(tables, last, it, t, f) <==> TargetRef(tables, it, last).value.table == t && it.field == f)
    ensures Normalized(it).field == it.field
  {
    hide TargetRef, Normalized;
    NormalizedTarget(tables, it, last);
    if IsRoot(it.targetModule) {
      RootHasNoRecord(tables, it, last);
    }
  }

  lemma JoinedLast(
    tables: Tables, n: nat, groups: seq<Group>, m: TargetModule, r: Ref, it: Item, t: TableId, f: Field)
    requires Lineage(tables.Get(t), n) && GroupsFresh(tables, groups) && DistinctRefs(groups) && IsCurrentRef(tables, r)
    ensures GroupsLast(Grouped(groups, m, r, tables.Get(r.table)[r.index], it), t, f) ==
      if r.table == t && it.field == f then Some(it.newValue) else GroupsLast(groups, t, f)
  {
    hide Grouped, GroupsLast, DistinctRefs, OneRef, GroupsFresh, Lineage;
    if r.table == t {
      FreshOneRef(tables, n, groups, t, r);
    }
    GroupedLast(groups, m, r, tables.Get(r.table)[r.index], it, t, f);
  }

  lemma SortedItemGroups(rt: Runtime, tables: Tables, last: TableId, acc: Sorted, raw: Item)
    requires SortItem(rt, tables, last, acc, raw).Ok?
    ensures IsRoot(raw.targetModule) || TargetRef(tables, raw, last).Some?
    ensures SortItem(rt, tables, last, acc, raw).value.groups ==
      if IsRoot(raw.targetModule) then acc.groups
      else
        var r := TargetRef(tables, raw, last).value;
        Grouped(acc.groups, raw.targetModule, r, tables.Get(r.table)[r.index], Normalized(raw))
  {
    hide Grouped, DomainValid, Allowlist, TargetRef, Normalized;
    NormalizedTarget(tables, raw, last);
  }

  /** A record its group has been applied to is not current any more, so a second group for it aborts. */
  lemma {:induction false} SupersededOnce(rt: Runtime, c: nat, groups: seq<Group>, db: Dossier)
    requires SupersedeGroups(rt, c, groups, db).Ok?
    ensures forall k :: 0 <= k < |groups| ==> Retired(SupersedeGroups(rt, c, groups, db).value.tables, groups[k].ref)
    ensures DistinctRefs(groups)
  {
    hide SupersedeGroup, Retired;
    if groups != [] {
      var init, last := groups[..|groups| - 1], groups[|groups| - 1];
      SupersededOnce(rt, c, init, db);
      var before := SupersedeGroups(rt, c, init, db).value;
      GroupRetired(rt, c, last, before);
      forall k | 0 <= k < |init|
        ensures Retired(SupersedeGroups(rt, c, groups, db).value.tables, groups[k].ref) && groups[k].ref != last.ref
      {
        assert init[k] == groups[k];
        RetiredStays(rt, c, last, before, groups[k].ref);
      }
    }
  }

  ghost predicate Retired(tables: Tables, r: Ref) {
    r.index < |tables.Get(r.table)| && !tables.Get(r.table)[r.index].isCurrent
  }

  lemma GroupRetired(rt: Runtime, c: nat, g: Group, db: Dossier)
    requires SupersedeGroup(rt, c, g, db).Ok?
    ensures Retired(SupersedeGroup(rt, c, g, db).value.tables, g.ref)
    ensures !Retired(db.tables, g.ref)
  {
    hide Edited, RecordTaken, Restrict, CopiedColumns, StoredGroup;
  }

  lemma RetiredStays(rt: Runtime, c: nat, g: Group, db: Dossier, r: Ref)
    requires SupersedeGroup(rt, c, g, db).Ok? && Retired(db.tables, r)
    ensures Retired(SupersedeGroup(rt, c, g, db).value.tables, r)
  {
    hide Edited, RecordTaken, Restrict, CopiedColumns, StoredGroup;
  }

  lemma NotAnOutcome(k: Mirror)
    ensures FieldIn(k) != CheckOutcome && forall pt :: ColumnOn(pt, k) != CheckOutcome
  {}

  lemma RootHasNoRecord(tables: Tables, it: Item, last: TableId)
    requires IsRoot(it.targetModule)
    ensures TargetRef(tables, it, last).None?
  {}

  // ----- What the corrected record holds -----

  lemma {:induction false} EditedField(rt: Runtime, t: TableId, fields: map<Field, Json>, items: seq<Item>, f: Field)
    ensures var v := LastOn(items, f);
      FieldOf(Edited(rt, t, fields, items), f) ==
        if v.Some? then Coerced(rt, t, f, v.value) else FieldOf(fields, f)
  {
    hide Coerced;
    if items != [] {
      EditedField(rt, t, fields, items[..|items| - 1], f);
    }
  }

  lemma WeighedByColumn(rt: Runtime, t: TableId, f: Field, v: Json)
    requires (t == InWeights || t == OutWeights) && f in CopiedColumns(t)
    ensures Coerced(rt, t, f, v) == StoredIn(rt, f, v)
  {
    hide ToNumber, OptNum, OptDate;
  }

  lemma NotOnVehicle()
    ensures var c := CopiedColumns(VehicleChecks);
      && Weight !in c && ActualWeight !in c && ActualQuantity !in c && PalletCount !in c && BagCount !in c
      && RollCount !in c && Moisture !in c && ForeignMatter !in c && SampleWeight !in c && GoodBeanPercentage !in c
      && StartAt !in c && EndAt !in c && TicketNumber !in c && Remarks !in c && DefectNotes !in c
  {}

  lemma VehicleColumn(f: Field)
    requires f in CopiedColumns(VehicleChecks)
    ensures !NumberColumn(f) && f != StartAt && f != EndAt
    ensures TextColumn(f) <==> f == Notes
  {
    hide CopiedColumns;
    NotOnVehicle();
  }

  lemma VehicleByColumn(rt: Runtime, f: Field, v: Json)
    requires f in CopiedColumns(VehicleChecks)
    ensures Coerced(rt, VehicleChecks, f, v) == StoredIn(rt, f, v)
  {
    hide ToNumber, OptNum, OptDate, CopiedColumns, NumberColumn, TextColumn;
    VehicleColumn(f);
  }

  lemma NotOfMaterial()
    ensures var c := CopiedColumns(MaterialChecks);
      && Weight !in c && ActualWeight !in c && ActualQuantity !in c && PalletCount !in c && BagCount !in c
      && RollCount !in c
  {}

  lemma NoTimeOfMaterial()
    ensures var c := CopiedColumns(MaterialChecks);
      StartAt !in c && EndAt !in c && TicketNumber !in c && Remarks !in c
  {}

  lemma MaterialColumn(f: Field)
    requires f in CopiedColumns(MaterialChecks)
    ensures NumberColumn(f) <==> f == Moisture || f == ForeignMatter || f == SampleWeight || f == GoodBeanPercentage
    ensures TextColumn(f) <==> f == Notes || f == DefectNotes
    ensures f != StartAt && f != EndAt
  {
    hide CopiedColumns;
    NotOfMaterial();
    NoTimeOfMaterial();
  }

  lemma MaterialByColumn(rt: Runtime, f: Field, v: Json)
    requires f in CopiedColumns(MaterialChecks)
    ensures Coerced(rt, MaterialChecks, f, v) == StoredIn(rt, f, v)
  {
    hide ToNumber, OptNum, OptDate, CopiedColumns, NumberColumn, TextColumn;
    MaterialColumn(f);
  }

  lemma ProcessColumn(f: Field)
    requires f in CopiedColumns(Warehousing)
    ensures NumberColumn(f) <==>
      f == ActualWeight || f == ActualQuantity || f == PalletCount || f == BagCount || f == RollCount
    ensures TextColumn(f) <==> f == Remarks
  {}

  lemma ProcessByColumn(rt: Runtime, f: Field, v: Json)
    requires f in CopiedColumns(Warehousing)
    ensures Coerced(rt, Warehousing, f, v) == StoredIn(rt, f, v)
  {
    hide ToNumber, OptNum, OptDate, CopiedColumns, NumberColumn, TextColumn;
    ProcessColumn(f);
  }

  /** What a column stores depends on the column alone. */
  lemma CoercedByColumn(rt: Runtime, t: TableId, f: Field, v: Json)
    requires f in CopiedColumns(t)
    ensures Coerced(rt, t, f, v) == StoredIn(rt, f, v)
  {
    hide CopiedColumns, Coerced, StoredIn;
    match t
    case VehicleChecks => VehicleByColumn(rt, f, v);
    case MaterialChecks => MaterialByColumn(rt, f, v);
    case Warehousing => ProcessByColumn(rt, f, v);
    case _ => WeighedByColumn(rt, t, f, v);
  }

  lemma CopiedColumn(fields: map<Field, Json>, t: TableId, f: Field)
    requires f in CopiedColumns(t)
    ensures FieldOf(Restrict(fields, CopiedColumns(t)), f) == FieldOf(fields, f)
  {
    hide CopiedColumns;
  }

  lemma MirrorCopied(k: Mirror)
    ensures FieldIn(k) in CopiedColumns(TableOf(k))
  {}

  /** The record a value is read from is the last of its table, if that one is current. */
  ghost predicate LastHolds(vs: seq<Version>, f: Field, w: Json) {
    vs != [] && vs[|vs| - 1].isCurrent ==> FieldOf(vs[|vs| - 1].fields, f) == w
  }

  lemma GroupAppends(rt: Runtime, c: nat, g: Group, db: Dossier)
    requires SupersedeGroup(rt, c, g, db).Ok?
    ensures var after := SupersedeGroup(rt, c, g, db).value.tables;
      var vs := after.Get(g.ref.table);
      && vs != [] && vs[|vs| - 1].isCurrent
      && vs[|vs| - 1].fields ==
        Edited(rt, g.ref.table, Restrict(g.rec.fields, CopiedColumns(g.ref.table)), g.items)
      && forall u :: u != g.ref.table ==> after.Get(u) == db.tables.Get(u)
  {
    hide Edited, RecordTaken, StoredGroup, Restrict, CopiedColumns;
  }

  lemma SupersedeGroupHolds(
    rt: Runtime, c: nat, g: Group, start: Dossier, db: Dossier, t: TableId, f: Field, w: Json)
    requires Lineages(db) && SupersedeGroup(rt, c, g, db).Ok? && Stable(db.tables, start.tables)
    requires IsCurrentRef(start.tables, g.ref) && g.rec == start.tables.Get(g.ref.table)[g.ref.index]
    requires f in CopiedColumns(t) && LastHolds(db.tables.Get(t), f, w)
    ensures var v := LastOn(g.items, f);
      LastHolds(SupersedeGroup(rt, c, g, db).value.tables.Get(t), f,
        if g.ref.table == t && v.Some? then StoredIn(rt, f, v.value) else w)
  {
    hide SupersedeGroup, Edited, Coerced, Lineages, Stable, StoredIn, LastOn, CopiedColumns, Restrict;
    GroupStillLast(rt, c, g, start, db);
    GroupAppends(rt, c, g, db);
    if g.ref.table == t {
      EditedField(rt, t, Restrict(g.rec.fields, CopiedColumns(t)), g.items, f);
      CopiedColumn(g.rec.fields, t, f);
      if LastOn(g.items, f).Some? {
        CoercedByColumn(rt, t, f, LastOn(g.items, f).value);
      }
    }
  }

  lemma {:induction false} SupersedeGroupsHold(
    rt: Runtime, c: nat, groups: seq<Group>, db: Dossier, t: TableId, f: Field, w: Json)
    requires Lineages(db) && c < |db.corrections| && SupersedeGroups(rt, c, groups, db).Ok?
    requires GroupsFresh(db.tables, groups) && f in CopiedColumns(t) && LastHolds(db.tables.Get(t), f, w)
    ensures var v := GroupsLast(groups, t, f);
      LastHolds(SupersedeGroups(rt, c, groups, db).value.tables.Get(t), f,
        if v.Some? then StoredIn(rt, f, v.value) else w)
  {
    hide SupersedeGroup, Lineages, StoredIn, LastOn, LastHolds, Stable, CopiedColumns;
    if groups != [] {
      var init, g := groups[..|groups| - 1], groups[|groups| - 1];
      SupersedeGroupsHold(rt, c, init, db, t, f, w);
      SupersedeGroupsKeep(rt, c, init, db);
      SupersedingStable(rt, c, init, db);
      var v := GroupsLast(init, t, f);
      SupersedeGroupHolds(rt, c, g, db, SupersedeGroups(rt, c, init, db).value, t, f,
        if v.Some? then StoredIn(rt, f, v.value) else w);
    }
  }

  lemma CurrentHolds(tables: Tables, n: nat, t: TableId, f: Field)
    requires Lineage(tables.Get(t), n)
    ensures HasCurrent(tables.Get(t)) ==> LastHolds(tables.Get(t), f, ValueIn(tables, t, f))
    ensures forall w :: HasCurrent(tables.Get(t)) && LastHolds(tables.Get(t), f, w) ==> ValueIn(tables, t, f) == w
  {
    CurrentIsLast(tables.Get(t), n);
  }

  // ----- A data correction -----

  /** What the request leaves in the row's column. */
  function RowLeft(rt: Runtime, req: CorrectionRequest, s: Dossier, k: Mirror): Json {
    var edit := LastEdit(s.tables, req.lastWeighbridge, req.items, k);
    var root := LastRootOn(req.items, ColumnOn(s.row.processType, k));
    if edit.Some? then Stored(rt, k, edit.value)
    else if root.Some? then root.value
    else RowValue(s.row, k)
  }

  /** The groups of an accepted correction write what the request's last item on each column sends. */
  lemma AcceptedLast(rt: Runtime, req: CorrectionRequest, s: Dossier, t: TableId, f: Field)
    requires Lineages(s) && CorrectRecords(rt, req, s).Ok?
    ensures GroupsLast(SortedOf(rt, req, s).groups, t, f) == LastEditOn(s.tables, req.lastWeighbridge, req.items, t, f)
  {
    hide SortItems, SupersedeGroups, RowChanges, HasChanges, ChangesTaken, ChangedRow, GrossUnderTare, StartsAfterEnd;
    var sorted := SortedOf(rt, req, s);
    SupersededOnce(rt, |s.corrections|, sorted.groups, Headed(req, sorted, s));
    LineageIn(s, t);
    SortedLast(rt, s.tables, |s.corrections|, req.lastWeighbridge, req.items, t, f);
  }

  /**
   * After an accepted correction the current record of a table holds in each of its columns what the last item on it
   * sends, stored as the column asks, and every other value as it was.
   */
  lemma CorrectedColumn(rt: Runtime, req: CorrectionRequest, s: Dossier, t: TableId, f: Field)
    requires Lineages(s) && CorrectRecords(rt, req, s).Ok? && f in CopiedColumns(t)
    ensures var after := CorrectRecords(rt, req, s).value;
      var edit := LastEditOn(s.tables, req.lastWeighbridge, req.items, t, f);
      && (HasCurrent(after.tables.Get(t)) <==> HasCurrent(s.tables.Get(t)))
      && (HasCurrent(s.tables.Get(t)) ==>
          ValueIn(after.tables, t, f) == if edit.Some? then StoredIn(rt, f, edit.value) else ValueIn(s.tables, t, f))
  {
    hide SortItems, SupersedeGroups, GroupChanges, RowChanges, HasChanges, ChangesTaken, ChangedRow, HasCurrent,
         GrossUnderTare, StartsAfterEnd, GroupsFresh, StoredIn, LastHolds, ValueIn, LineagesOf, CopiedColumns;
    var sorted := SortedOf(rt, req, s);
    var after := CorrectRecords(rt, req, s).value;
    HeadedKeepsLineages(req, sorted, s);
    CorrectionShape(rt, req, s);
    SortItemsFresh(rt, s.tables, req.lastWeighbridge, req.items);
    LineageIn(s, t);
    LineageIn(after, t);
    AcceptedLast(rt, req, s, t, f);
    CurrentHolds(s.tables, |s.corrections|, t, f);
    CurrentHolds(after.tables, |after.corrections|, t, f);
    if HasCurrent(s.tables.Get(t)) {
      SupersedeGroupsHold(rt, |s.corrections|, sorted.groups, Headed(req, sorted, s), t, f, ValueIn(s.tables, t, f));
    }
  }

  lemma LineageIn(s: Dossier, t: TableId)
    requires Lineages(s)
    ensures Lineage(s.tables.Get(t), |s.corrections|)
  {}

  /** What an accepted correction writes to a mirrored column is what the row then holds. */
  lemma TakenMirror(rt: Runtime, row: Row, changes: map<Field, Json>, k: Mirror)
    requires ChangesTaken(rt, changes)
    ensures var c := ColumnOn(row.processType, k);
      && Column(ChangedRow(row, changes), c) == (if c in changes then changes[c] else Column(row, c))
      && (c in changes && k != UnitMirror ==> changes[c] != Null)
  {
    var c := ColumnOn(row.processType, k);
    assert c in changes ==> ColumnTakes(rt, c, changes[c]);
  }

  lemma CorrectedRow(rt: Runtime, req: CorrectionRequest, s: Dossier, k: Mirror)
    requires Lineages(s) && CorrectRecords(rt, req, s).Ok?
    ensures RowValue(CorrectRecords(rt, req, s).value.row, k) == RowLeft(rt, req, s, k)
  {
    hide SortItems, SupersedeGroups, GroupChanges, RootChanges, HasChanges, ChangesTaken, ChangedRow, HasCurrent,
         GrossUnderTare, StartsAfterEnd, GroupsFresh, Stored, TableOf, FieldIn, LineagesOf, ColumnOn, Column;
    var sorted := SortedOf(rt, req, s);
    var pt := s.row.processType;
    NotAnOutcome(k);
    AcceptedLast(rt, req, s, TableOf(k), FieldIn(k));
    SortedRoots(rt, s.tables, req.lastWeighbridge, req.items, ColumnOn(pt, k));
    GroupsWrite(rt, pt, RootChanges(sorted.roots), sorted.groups, k);
    TakenMirror(rt, s.row, RowChanges(rt, pt, sorted), k);
    FinalRow(rt, req, s, k);
  }

  lemma FinalColumn(row: Row, revision: int, k: Mirror)
    ensures var final := WithNet(row).(revision := revision);
      final.processType == row.processType && RowValue(final, k) == RowValue(row, k)
  {}

  lemma ChangedType(row: Row, changes: map<Field, Json>)
    ensures ChangedRow(row, changes).processType == row.processType
  {}

  lemma FinalRow(rt: Runtime, req: CorrectionRequest, s: Dossier, k: Mirror)
    requires CorrectRecords(rt, req, s).Ok?
    ensures var changes := RowChanges(rt, s.row.processType, SortedOf(rt, req, s));
      && ChangesTaken(rt, changes)
      && RowValue(CorrectRecords(rt, req, s).value.row, k) ==
        Column(ChangedRow(s.row, changes), ColumnOn(s.row.processType, k))
      && RowValue(s.row, k) == Column(s.row, ColumnOn(s.row.processType, k))
  {
    hide SortItems, SupersedeGroups, RowChanges, HasChanges, ChangesTaken, GrossUnderTare, StartsAfterEnd, WithNet,
         ChangedRow, Column, ColumnOn, FraudAfter;
    var row := ChangedRow(s.row, RowChanges(rt, s.row.processType, SortedOf(rt, req, s)));
    ChangedType(s.row, RowChanges(rt, s.row.processType, SortedOf(rt, req, s)));
    FinalColumn(row, s.row.revision + 1, k);
  }

  /**
   * What an accepted correction does to a mirrored column: the last item on the record leaves its value, stored as its
   * type asks, on the record and on the row; without one the record keeps its value and the row takes what was written
   * straight to it, if anything was.
   */
  lemma CorrectedMirror(rt: Runtime, req: CorrectionRequest, s: Dossier, k: Mirror)
    requires Lineages(s) && CorrectRecords(rt, req, s).Ok?
    ensures var after := CorrectRecords(rt, req, s).value;
      var edit := LastEdit(s.tables, req.lastWeighbridge, req.items, k);
      var root := LastRootOn(req.items, ColumnOn(s.row.processType, k));
      && (HasCurrent(after.tables.Get(TableOf(k))) <==> HasCurrent(s.tables.Get(TableOf(k))))
      && (edit.Some? ==>
          && HasCurrent(s.tables.Get(TableOf(k)))
          && RecordValue(after.tables, k) == RowValue(after.row, k) == Stored(rt, k, edit.value))
      && (edit.None? ==>
          && (HasCurrent(s.tables.Get(TableOf(k))) ==> RecordValue(after.tables, k) == RecordValue(s.tables, k))
          && RowValue(after.row, k) == (if root.Some? then root.value else RowValue(s.row, k)))
      && (RowValue(after.row, k) == Null ==> k == UnitMirror || RowValue(s.row, k) == Null)
  {
    hide CorrectRecords, Lineages, LastRootOn, StoredIn, ValueIn, RowValue, HasCurrent;
    FinalRow(rt, req, s, k);
    TakenMirror(rt, s.row, RowChanges(rt, s.row.processType, SortedOf(rt, req, s)), k);
    MirrorCopied(k);
    CorrectedColumn(rt, req, s, TableOf(k), FieldIn(k));
    CorrectedRow(rt, req, s, k);
    EditNeedsRecord(s.tables, req.lastWeighbridge, req.items, TableOf(k), FieldIn(k));
  }

  lemma {:induction false} EditNeedsRecord(tables: Tables, last: TableId, items: seq<Item>, t: TableId, f: Field)
    ensures LastEditOn(tables, last, items, t, f).Some? ==> HasCurrent(tables.Get(t))
  {
    hide Edits, Normalized, HasCurrent;
    if items != [] {
      EditNeedsRecord(tables, last, items[..|items| - 1], t, f);
      OneEditNeedsRecord(tables, last, items[|items| - 1], t, f);
    }
  }

  lemma OneEditNeedsRecord(tables: Tables, last: TableId, it: Item, t: TableId, f: Field)
    ensures Edits(tables, last, it, t, f) ==> HasCurrent(tables.Get(t))
  {
    hide TargetRef, HasCurrent;
    if Edits(tables, last, it, t, f) {
      CurrentRefHas(tables, TargetRef(tables, it, last).value);
    }
  }

  lemma CurrentRefHas(tables: Tables, r: Ref)
    requires IsCurrentRef(tables, r)
    ensures HasCurrent(tables.Get(r.table))
  {
    assert tables.Get(r.table)[r.index].isCurrent;
  }

  /** Exactly when an accepted correction keeps a mirrored column and its record in agreement. */
  lemma MirrorKeptIff(rt: Runtime, req: CorrectionRequest, s: Dossier, k: Mirror)
    requires Lineages(s) && Agrees(s, k) && CorrectRecords(rt, req, s).Ok?
    ensures Agrees(CorrectRecords(rt, req, s).value, k) <==> KeepsMirror(req, s, k)
  {
    hide CorrectRecords, Lineages, LastRootOn, LastEdit, Stored, RecordValue, RowValue, HasCurrent, TableOf, ColumnOn;
    CorrectedMirror(rt, req, s, k);
  }
}
