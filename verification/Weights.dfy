/** The weights cached on the transaction row: their net, and their agreement with the weighbridge records. */
module Weights {
  import opened Prelude
  import opened Workflow
  import opened Records
  import opened Steps
  import opened Corrections
  import opened Protocol
  import opened Stages
  import opened Mirrors

  // ----- Net weight -----

  predicate NetConsistent(row: Row) {
    && (row.netWeight.Some? <==> row.grossWeight.Some? && row.tareWeight.Some?)
    && (row.netWeight.Some? ==> row.netWeight.value == NonNegative(row.grossWeight.value - row.tareWeight.value))
  }

  lemma ForwardKeepsNet(f: Forward, s: Dossier)
    requires Staged(s) && NetConsistent(s.row) && ApplyForward(f, s).Ok?
    ensures NetConsistent(ApplyForward(f, s).value.row)
  {
    hide HasCurrent, CurrentAt, Inserted, LaterTables;
    InWeightFallbackNeverNeeded(s);
    if !f.WeighIn? && !f.WeighOut? {
      OnlyWeighingTouchesWeights(f, s);
    }
  }

  lemma CorrectionKeepsNet(rt: Runtime, c: CorrectionRequest, s: Dossier)
    requires NetConsistent(s.row) && ReadCorrection(c).None? && CommitCorrection(rt, c, s).Ok?
    ensures NetConsistent(CommitCorrection(rt, c, s).value.row)
  {
    hide SortItems, SupersedeGroups, RowChanges, HasChanges, ChangesTaken, ClearedTables;
  }

  /** In every run the net weight is set exactly when gross and tare are, and is their difference floored at zero. */
  lemma {:induction false} RunNetConsistent(rt: Runtime, pt: ProcessType, info: map<Field, Json>, reqs: seq<Request>)
    ensures NetConsistent(Run(rt, NewDossier(pt, info), reqs).row)
  {
    if reqs != [] {
      var init := reqs[..|reqs| - 1];
      var req := reqs[|reqs| - 1];
      var before := Run(rt, NewDossier(pt, info), init);
      RunNetConsistent(rt, pt, info, init);
      RunStaged(rt, pt, info, init);
      if Apply(rt, req, before).Ok? {
        match req
        case Move(f) => ForwardKeepsNet(f, before);
        case Correct(c) => CorrectionKeepsNet(rt, c, before);
      }
    }
  }

  /** A truck let out lighter than it came in cannot be reopened until its weights are corrected. */
  lemma NegativeNetCannotReopen(rt: Runtime, c: CorrectionRequest, s: Dossier)
    requires ReadCorrection(c).None? && c.action == ReopenWorkflow && GrossUnderTare(s.row)
    ensures CommitCorrection(rt, c, s).Err?
    ensures NetConsistent(s.row) ==> s.row.netWeight == Some(0.0)
  {}

  /** Exactly when a reopening commits. */
  lemma ReopenCommitsIff(rt: Runtime, c: CorrectionRequest, s: Dossier)
    requires ReadCorrection(c).None? && c.action == ReopenWorkflow
    ensures var row, to := s.row, c.reopenTarget.value;
      CommitCorrection(rt, c, s).Ok? <==>
        && (row.status == Completed || row.status == Cancelled) && !row.isVoided
        && row.revision == c.expectedRevision
        && (to == Registered || to == QcVehiclePending || to == QcVehiclePassed || to == WarehouseInProgress
            || (to == IncomingCheckPending && row.processType != GBJ))
        && (row.grossWeight.Some? && row.tareWeight.Some? ==> row.grossWeight.value >= row.tareWeight.value)
        && (row.warehouseStartAt.Some? && row.warehouseEndAt.Some? ==>
            row.warehouseStartAt.value <= row.warehouseEndAt.value)
  {
    hide ClearedTables, FraudAfter, ReopenedRow, WithNet;
  }

  /** A reopening past weigh-in discards the weigh-out record but leaves its weight and the net on the row. */
  lemma ReopenKeepsWeighOut(req: CorrectionRequest, target: Status, s: Dossier)
    requires Lineages(s) && Staged(s) && NetConsistent(s.row) && Reopen(req, target, s).Ok?
    requires EffectiveTarget(target) != Registered
    ensures var after := Reopen(req, target, s).value;
      && !HasCurrent(after.tables.outWeights) && after.row.weighOutAt.None?
      && after.row.grossWeight == s.row.grossWeight && after.row.tareWeight == s.row.tareWeight
      && after.row.netWeight == s.row.netWeight
  {
    hide ClearedTables, Lineages, Staged, TablesExtend, FraudAfter, HasCurrent;
    ReopenKeepsStage(req, target, s);
    assert !HasCurrent(Reopen(req, target, s).value.tables.Get(OutWeights));
  }

  // ----- Agreement with the weighbridge records -----

  predicate CurrentWeighs(vs: seq<Version>, w: Json) {
    var i := CurrentAt(vs);
    i.Some? ==> w.Num? && FieldOf(vs[i.value].fields, Weight) == w
  }

  /** The current in and out records carry the weights cached on the row, gross and tare swapped for GBJ. */
  predicate Cached(s: Dossier) {
    CurrentWeighs(s.tables.inWeights, OptNum(InWeight(s.row)))
      && CurrentWeighs(s.tables.outWeights, OptNum(OutWeight(s.row)))
  }

  predicate CorrectsCachedWeight(it: Item) {
    IsRoot(it.targetModule) && it.field in {GrossWeight, TareWeight}
  }

  /** A correction that writes a cached weight directly, past the weighbridge record. */
  predicate BypassesRecords(req: Request) {
    req.Correct? && exists i :: 0 <= i < |req.correction.items| && CorrectsCachedWeight(req.correction.items[i])
  }

  lemma NothingWeighs(vs: seq<Version>, w: Json)
    requires !HasCurrent(vs)
    ensures CurrentWeighs(vs, w)
  {}

  lemma InsertedWeighs(vs: seq<Version>, corrections: nat, weight: real, ticket: Json, remarks: Json)
    requires Lineage(vs, corrections) && !HasCurrent(vs)
    ensures CurrentWeighs(Inserted(vs, WeighRecord(weight, ticket, remarks)), Num(weight))
  {
    hide MaxRevision;
    InsertKeepsLineage(vs, WeighRecord(weight, ticket, remarks), corrections);
  }

  lemma WeighInCaches(weight: real, ticket: Json, remarks: Json, now: int, s: Dossier)
    requires Lineages(s) && Staged(s) && ReadWeighIn(weight, s).None?
    requires CommitWeighIn(weight, ticket, remarks, now, s.row, s).Ok?
    ensures Cached(CommitWeighIn(weight, ticket, remarks, now, s.row, s).value)
  {
    hide Inserted, HasCurrent, CurrentWeighs, WeighRecord, TransitionAllowed;
    assert Lineage(s.tables.Get(InWeights), |s.corrections|);
    assert !HasCurrent(s.tables.Get(OutWeights));
    InsertedWeighs(s.tables.inWeights, |s.corrections|, weight, ticket, remarks);
    NothingWeighs(s.tables.outWeights,
      OptNum(OutWeight(CommitWeighIn(weight, ticket, remarks, now, s.row, s).value.row)));
  }

  lemma WeighOutCaches(weight: real, ticket: Json, remarks: Json, now: int, s: Dossier)
    requires Lineages(s) && Staged(s) && Cached(s) && ReadWeighOut(weight, s).None?
    requires CommitWeighOut(weight, ticket, remarks, now, s, s).Ok?
    ensures Cached(CommitWeighOut(weight, ticket, remarks, now, s, s).value)
  {
    hide Inserted, HasCurrent, CurrentWeighs, WeighRecord, TransitionAllowed, KnownInWeight, Assess, Staged;
    assert Lineage(s.tables.Get(OutWeights), |s.corrections|);
    InWeightFallbackNeverNeeded(s);
    InsertedWeighs(s.tables.outWeights, |s.corrections|, weight, ticket, remarks);
  }

  /** No other forward step touches a weight on the row or a weighbridge record. */
  lemma OnlyWeighingTouchesWeights(f: Forward, s: Dossier)
    requires ApplyForward(f, s).Ok? && !f.WeighIn? && !f.WeighOut?
    ensures var after := ApplyForward(f, s).value;
      && after.row.grossWeight == s.row.grossWeight && after.row.tareWeight == s.row.tareWeight
      && after.row.netWeight == s.row.netWeight && after.row.processType == s.row.processType
      && after.tables.inWeights == s.tables.inWeights && after.tables.outWeights == s.tables.outWeights
      && after.fraudChecks == s.fraudChecks
  {
    hide HasCurrent, CurrentAt, Inserted, FinishedProcess, Annotated, VehicleRecord, VehicleVerdict, Measured;
  }

  lemma ForwardKeepsCache(f: Forward, s: Dossier)
    requires Lineages(s) && Staged(s) && Cached(s) && ApplyForward(f, s).Ok?
    ensures Cached(ApplyForward(f, s).value)
  {
    hide Lineages, Staged, CurrentWeighs;
    match f
    case WeighIn(weight, ticket, remarks, now) => WeighInCaches(weight, ticket, remarks, now, s);
    case WeighOut(weight, ticket, remarks, now) => WeighOutCaches(weight, ticket, remarks, now, s);
    case _ => OnlyWeighingTouchesWeights(f, s);
  }

  lemma ReopenedWeights(row: Row, to: Status)
    requires to != Registered
    ensures InWeight(ReopenedRow(WithNet(row), to)) == InWeight(row)
  {}

  lemma ReopenedTarget(req: CorrectionRequest, target: Status, s: Dossier)
    requires Reopen(req, target, s).Ok?
    ensures OutWeights in LaterTables(EffectiveTarget(target))
  {
    hide ClearedTables, FraudAfter, ReopenedRow, WithNet, GrossUnderTare, StartsAfterEnd;
  }

  lemma ReopenedRecords(req: CorrectionRequest, target: Status, s: Dossier)
    requires Lineages(s) && Staged(s) && Reopen(req, target, s).Ok?
    ensures var after := Reopen(req, target, s).value;
      && !HasCurrent(after.tables.outWeights)
      && (EffectiveTarget(target) == Registered ==> !HasCurrent(after.tables.inWeights))
  {
    hide Reopen, Lineages, Staged, HasCurrent;
    ReopenedTarget(req, target, s);
    ReopenKeepsStage(req, target, s);
    var after := Reopen(req, target, s).value;
    assert !HasCurrent(after.tables.Get(OutWeights));
    assert EffectiveTarget(target) == Registered ==> !HasCurrent(after.tables.Get(InWeights));
  }

  lemma ReopenedInWeight(req: CorrectionRequest, target: Status, s: Dossier)
    requires Reopen(req, target, s).Ok? && EffectiveTarget(target) != Registered
    ensures var after := Reopen(req, target, s).value;
      after.tables.inWeights == s.tables.inWeights && InWeight(after.row) == InWeight(s.row)
  {
    hide ClearedTables, FraudAfter, InWeight, ReopenedRow, WithNet, GrossUnderTare, StartsAfterEnd;
    ReopenedWeights(s.row, EffectiveTarget(target));
    assert Reopen(req, target, s).value.tables.Get(InWeights) == s.tables.Get(InWeights);
  }

  lemma ReopenKeepsCache(req: CorrectionRequest, target: Status, s: Dossier)
    requires Lineages(s) && Staged(s) && Cached(s) && Reopen(req, target, s).Ok?
    ensures Cached(Reopen(req, target, s).value)
  {
    hide Reopen, Lineages, Staged, CurrentWeighs, HasCurrent;
    var after := Reopen(req, target, s).value;
    ReopenedRecords(req, target, s);
    NothingWeighs(after.tables.outWeights, OptNum(OutWeight(after.row)));
    if EffectiveTarget(target) == Registered {
      NothingWeighs(after.tables.inWeights, OptNum(InWeight(after.row)));
    } else {
      ReopenedInWeight(req, target, s);
    }
  }

  lemma FreshCached(pt: ProcessType, info: map<Field, Json>)
    ensures Cached(NewDossier(pt, info))
  {}

  // ----- Corrections of the cached weights -----

  lemma ItemOverlay(rt: Runtime, pt: ProcessType, t: TableId, under: map<Field, Json>, over: map<Field, Json>, it: Item)
    ensures ItemChanges(rt, pt, t, under + over, it) == under + ItemChanges(rt, pt, t, over, it)
  {
    hide AsNumber, AsDate;
  }

  lemma {:induction false} RecordOverlay(
    rt: Runtime, pt: ProcessType, t: TableId, changes: map<Field, Json>, items: seq<Item>)
    ensures RecordChanges(rt, pt, t, changes, items) == changes + RecordChanges(rt, pt, t, map[], items)
  {
    hide ItemChanges;
    if items != [] {
      RecordOverlay(rt, pt, t, changes, items[..|items| - 1]);
      ItemOverlay(rt, pt, t, changes, RecordChanges(rt, pt, t, map[], items[..|items| - 1]), items[|items| - 1]);
    }
  }

  /** What the groups write lies over what was written before. */
  lemma {:induction false} GroupOverlay(rt: Runtime, pt: ProcessType, changes: map<Field, Json>, groups: seq<Group>)
    ensures GroupChanges(rt, pt, changes, groups) == changes + GroupChanges(rt, pt, map[], groups)
  {
    hide RecordChanges;
    if groups != [] {
      var init, g := groups[..|groups| - 1], groups[|groups| - 1];
      GroupOverlay(rt, pt, changes, init);
      RecordOverlay(rt, pt, g.ref.table, GroupChanges(rt, pt, changes, init), g.items);
      RecordOverlay(rt, pt, g.ref.table, GroupChanges(rt, pt, map[], init), g.items);
    }
  }

  /** A cached weight agrees with its record exactly when it is a number and mirrors it. */
  lemma CachedIff(s: Dossier)
    ensures Cached(s) <==> forall k :: k == InMirror || k == OutMirror ==>
      Agrees(s, k) && (HasCurrent(s.tables.Get(TableOf(k))) ==> RowValue(s.row, k) != Null)
  {
    assert RowValue(s.row, InMirror) == OptNum(InWeight(s.row));
    assert RowValue(s.row, OutMirror) == OptNum(OutWeight(s.row));
  }

  /**
   * A data correction keeps records and cached weights in agreement exactly when, for each weighbridge table with a
   * current record, the last value written straight to its column repeats the recorded weight, or the same request
   * edits the record's weight as well.
   */
  lemma BypassKeepsCacheIff(rt: Runtime, req: CorrectionRequest, s: Dossier)
    requires Lineages(s) && Cached(s) && CorrectRecords(rt, req, s).Ok?
    ensures Cached(CorrectRecords(rt, req, s).value) <==>
      KeepsMirror(req, s, InMirror) && KeepsMirror(req, s, OutMirror)
  {
    hide CorrectRecords, KeepsMirror, Cached, Lineages, HasCurrent, Agrees, RowValue;
    var after := CorrectRecords(rt, req, s).value;
    CachedIff(s);
    CachedIff(after);
    forall k | k == InMirror || k == OutMirror
      ensures HasCurrent(after.tables.Get(TableOf(k))) ==> RowValue(after.row, k) != Null
      ensures Agrees(after, k) <==> KeepsMirror(req, s, k)
    {
      CorrectedMirror(rt, req, s, k);
      MirrorKeptIff(rt, req, s, k);
    }
  }

  /** If the call is a data correction that goes through, it keeps the weight of both weighbridge tables. */
  predicate SparesCache(rt: Runtime, req: Request, s: Dossier) {
    req.Correct? && req.correction.action != ReopenWorkflow && Apply(rt, req, s).Ok? ==>
      KeepsMirror(req.correction, s, InMirror) && KeepsMirror(req.correction, s, OutMirror)
  }

  lemma {:induction false} NoRootOn(items: seq<Item>, f: Field)
    requires (f == GrossWeight || f == TareWeight) && forall i :: 0 <= i < |items| ==> !CorrectsCachedWeight(items[i])
    ensures LastRootOn(items, f).None?
  {
    if items != [] {
      assert !CorrectsCachedWeight(items[|items| - 1]);
      NoRootOn(items[..|items| - 1], f);
    }
  }

  /** A request that writes no cached weight directly spares the cache in every state. */
  lemma NoBypassSpares(rt: Runtime, req: Request, s: Dossier)
    requires !BypassesRecords(req)
    ensures SparesCache(rt, req, s)
  {
    hide Apply, LastEdit, LastRootOn;
    if req.Correct? {
      NoRootOn(req.correction.items, GrossWeight);
      NoRootOn(req.correction.items, TareWeight);
    }
  }

  /** The next call keeps the agreement exactly when it spares the cache. */
  lemma AfterKeepsCacheIff(rt: Runtime, req: Request, s: Dossier)
    requires Lineages(s) && Staged(s) && Cached(s)
    ensures Cached(After(rt, s, req)) <==> SparesCache(rt, req, s)
  {
    hide Lineages, Staged, Cached, KeepsMirror, ReadForward, CommitForward, CorrectRecords, Reopen;
    if Apply(rt, req, s).Ok? {
      match req
      case Move(f) => ForwardKeepsCache(f, s);
      case Correct(c) =>
        if c.action == ReopenWorkflow {
          ReopenKeepsCache(c, c.reopenTarget.value, s);
        } else {
          BypassKeepsCacheIff(rt, c, s);
        }
    }
  }

  /**
   * In every run whose corrections spare the cache, the current weighbridge records agree with the row, through
   * weigh-in, weigh-out, corrections of the records and reopenings.
   */
  lemma {:induction false} RunCached(rt: Runtime, pt: ProcessType, info: map<Field, Json>, reqs: seq<Request>)
    requires forall i :: 0 <= i < |reqs| ==> SparesCache(rt, reqs[i], Run(rt, NewDossier(pt, info), reqs[..i]))
    ensures Cached(Run(rt, NewDossier(pt, info), reqs))
  {
    hide Lineages, Staged, Cached, SparesCache, After;
    if reqs == [] {
      FreshCached(pt, info);
    } else {
      var init := reqs[..|reqs| - 1];
      forall i | 0 <= i < |init| ensures SparesCache(rt, init[i], Run(rt, NewDossier(pt, info), init[..i])) {
        assert init[..i] == reqs[..i] && SparesCache(rt, reqs[i], Run(rt, NewDossier(pt, info), reqs[..i]));
      }
      RunCached(rt, pt, info, init);
      RunStaged(rt, pt, info, init);
      assert SparesCache(rt, reqs[|reqs| - 1], Run(rt, NewDossier(pt, info), reqs[..|reqs| - 1]));
      AfterKeepsCacheIff(rt, reqs[|reqs| - 1], Run(rt, NewDossier(pt, info), init));
    }
  }

  // ----- A run that loses the agreement -----

  function Overwrite(v: real): CorrectionRequest {
    CorrectionRequest(CorrectData, None, 3, [Item(TransactionModule, None, GrossWeight, Num(v))], InWeights)
  }

  lemma CancelledRow(rt: Runtime, s: Dossier)
    requires !Terminal(s.row.status)
    ensures var after := After(rt, s, Move(Cancel("", 0)));
      && after.tables == s.tables && after.row.revision == s.row.revision + 1
      && after.row == s.row.(status := Cancelled, revision := after.row.revision, cancelledAt := after.row.cancelledAt,
        info := after.row.info)
  {}

  /** A truck weighed in at 10, its record the only one. */
  predicate OnceWeighed(s: Dossier) {
    && s.row.processType == GBB && s.row.grossWeight == Some(10.0) && s.row.tareWeight.None?
    && s.row.warehouseStartAt.None?
    && s.tables == Tables([Version(1, true, None, WeighRecord(10.0, Null, Null))], [], [], [], [])
  }

  lemma WeighedOnce(rt: Runtime)
    ensures var s := After(rt, NewDossier(GBB, map[]), Move(WeighIn(10.0, Null, Null, 0)));
      OnceWeighed(s) && s.row.status == QcVehiclePending && s.row.revision == 2
  {
    hide WeighRecord;
    assert Inserted([], WeighRecord(10.0, Null, Null)) == [Version(1, true, None, WeighRecord(10.0, Null, Null))];
  }

  lemma WeighedAndCancelled(rt: Runtime)
    ensures var s := Run(rt, NewDossier(GBB, map[]), [Move(WeighIn(10.0, Null, Null, 0)), Move(Cancel("", 0))]);
      OnceWeighed(s) && s.row.status == Cancelled && s.row.revision == 3
  {
    hide After;
    var start, weigh, cancel := NewDossier(GBB, map[]), Move(WeighIn(10.0, Null, Null, 0)), Move(Cancel("", 0));
    assert [] + [weigh] == [weigh] && [weigh] + [cancel] == [weigh, cancel];
    RunSnoc(rt, start, [], weigh);
    RunSnoc(rt, start, [weigh], cancel);
    WeighedOnce(rt);
    CancelledRow(rt, Run(rt, start, [weigh]));
  }

  lemma SortOne(rt: Runtime, tables: Tables, last: TableId, it: Item)
    ensures SortItems(rt, tables, last, [it]) == SortItem(rt, tables, last, Sorted([], []), it)
  {
    hide SortItem;
    assert [it][..0] == [];
  }

  lemma ChangesOfRoot(rt: Runtime, pt: ProcessType, it: Item)
    ensures RowChanges(rt, pt, Sorted([it], [])) == map[it.field := it.newValue]
  {
    assert [it][..0] == [] && RootChanges([it][..0]) == map[];
    assert RootChanges([it]) == map[][it.field := it.newValue];
  }

  lemma ChangesOfGroup(rt: Runtime, pt: ProcessType, m: TargetModule, r: Ref, rec: Version, it: Item)
    ensures RowChanges(rt, pt, Sorted([], [Group(m, r, rec, [it])])) == ItemChanges(rt, pt, r.table, map[], it)
  {
    hide ItemChanges;
    var g := Group(m, r, rec, [it]);
    assert [g][..0] == [] && [it][..0] == [];
    assert GroupChanges(rt, pt, RootChanges([]), [g][..0]) == map[]
      && RecordChanges(rt, pt, r.table, map[], [it][..0]) == map[];
    assert RecordChanges(rt, pt, r.table, map[], [it]) == ItemChanges(rt, pt, r.table, map[], it);
    assert GroupChanges(rt, pt, RootChanges([]), [g]) == RecordChanges(rt, pt, r.table, map[], [it]);
  }

  lemma OverwriteAllowed(rt: Runtime, it: Item)
    requires it.targetModule == TransactionModule && it.field == GrossWeight && it.newValue.Num? && it.newValue.n > 0.0
    ensures it.field in Allowlist(it.targetModule) && DomainValid(rt, it.field, it.newValue) && Normalized(it) == it
  {}

  /** A request of one item on the row itself. */
  lemma RootSorted(rt: Runtime, pt: ProcessType, tables: Tables, last: TableId, it: Item)
    requires it.field in Allowlist(it.targetModule) && DomainValid(rt, it.field, it.newValue) && Normalized(it) == it
    requires IsRoot(it.targetModule)
    ensures var sorted := SortItems(rt, tables, last, [it]);
      sorted == Ok(Sorted([it], [])) && RowChanges(rt, pt, sorted.value) == map[it.field := it.newValue]
  {
    hide SortItems, RowChanges, Allowlist, DomainValid, Normalized, TargetRef;
    SortOne(rt, tables, last, it);
    assert [] + [it] == [it];
    ChangesOfRoot(rt, pt, it);
  }

  lemma CachedColumn(row: Row)
    ensures Column(row, GrossWeight) == OptNum(row.grossWeight)
  {}

  lemma OverwriteAccepted(rt: Runtime, s: Dossier)
    requires OnceWeighed(s) && rt.stringify(Num(10.0)) != rt.stringify(Num(20.0))
    ensures CorrectRecords(rt, Overwrite(20.0), s).Ok?
  {
    hide SortItems, RowChanges, FraudAfter, StoredRoots, WithNet, Column, Headed, Allowlist, DomainValid, Normalized;
    CachedColumn(s.row);
    OverwriteAllowed(rt, Overwrite(20.0).items[0]);
    RootSorted(rt, GBB, s.tables, InWeights, Overwrite(20.0).items[0]);
    var sorted := Sorted(Overwrite(20.0).items, []);
    assert RootChanged(rt, s.row, sorted.roots[0]);
    assert HasChanges(rt, s.row, sorted);
  }

  /** Weighed in at 10, cancelled, and the cached gross weight overwritten with 20: the record still says 10. */
  lemma OverwriteLosesTheRecord(rt: Runtime)
    requires rt.stringify(Num(10.0)) != rt.stringify(Num(20.0))
    ensures var s := Run(rt, NewDossier(GBB, map[]), [Move(WeighIn(10.0, Null, Null, 0)), Move(Cancel("", 0))]);
      && Cached(s)
      && Apply(rt, Correct(Overwrite(20.0)), s).Ok?
      && !Cached(After(rt, s, Correct(Overwrite(20.0))))
  {
    hide CorrectRecords, Run, Lineages, Staged, Cached, OnceWeighed;
    var calls := [Move(WeighIn(10.0, Null, Null, 0)), Move(Cancel("", 0))];
    var s := Run(rt, NewDossier(GBB, map[]), calls);
    RunStaged(rt, GBB, map[], calls);
    WeighedAndCancelled(rt);
    OnceWeighedCached(s);
    OverwriteAccepted(rt, s);
    BypassKeepsCacheIff(rt, Overwrite(20.0), s);
    OverwriteNotKept(s);
  }

  lemma OnceWeighedCached(s: Dossier)
    requires OnceWeighed(s)
    ensures Cached(s)
  {}

  lemma OverwriteNotKept(s: Dossier)
    requires OnceWeighed(s)
    ensures !KeepsMirror(Overwrite(20.0), s, InMirror)
  {
    assert CurrentAt(s.tables.Get(InWeights)) == Some(0);
  }
}
