/** From which states a transaction can still be completed, without an administrator's correction and with one. */
module Progress {
  import opened Prelude
  import opened Workflow
  import opened Records
  import opened Steps
  import opened Corrections
  import opened Protocol
  import opened Stages
  import opened Mirrors
  import opened Weights
  import opened StatusHistory
  import opened Fraud
  import GbjChecklist

  predicate NoCorrections(reqs: seq<Request>) {
    forall i :: 0 <= i < |reqs| ==> reqs[i].Move?
  }

  ghost predicate Completable(rt: Runtime, s: Dossier) {
    exists reqs :: NoCorrections(reqs) && Run(rt, s, reqs).row.status == Completed
  }

  /**
   * The condition a caller can read off the row: the truck is still to be weighed in, or weighed out, or its
   * in-weight is recorded; and accepted goods are not on a truck at the scale's minimum, which no
   * weigh-out can undercut.
   */
  predicate CanFinish(row: Row) {
    || row.status == Registered
    || row.status == WeighOutDone
    || (InWeight(row).Some? && (row.status == IncomingCheckPassed ==> InWeight(row).value > MIN_WEIGHT))
  }

  // ----- The next step -----

  const ALL_OK := GbjChecklist.RawItem(Some(true), None)

  const CLEAN_FORM := GbjChecklist.Request(GbjChecklist.Pass, None, None,
    Some([ALL_OK, ALL_OK, ALL_OK, ALL_OK, ALL_OK]))

  lemma CleanFormPasses(pt: ProcessType)
    ensures VehicleVerdict(pt, CLEAN_FORM) == Some(true)
  {
    var items := CLEAN_FORM.items.value;
    assert forall i :: 0 <= i < |items| ==> items[i] == ALL_OK;
    assert GbjChecklist.ChecklistValid(CLEAN_FORM.items);
    assert !GbjChecklist.HasNotOk(GbjChecklist.CheckedItems(items));
  }

  /** A weight the scale reads and the weigh-out accepts. */
  function OutWeightFor(row: Row): real {
    if row.processType == GBJ
      then (if row.tareWeight.Some? && row.tareWeight.value > 0.0 then row.tareWeight.value + 1.0 else 1.0)
    else MIN_WEIGHT
  }

  function NextStep(row: Row): Forward {
    match row.status
    case Registered => WeighIn(1.0, Null, Null, 0)
    case QcVehiclePending => SubmitVehicleCheck(CLEAN_FORM, map[], Null, Null, 0)
    case QcVehicleInProgress => SubmitVehicleCheck(CLEAN_FORM, map[], Null, Null, 0)
    case QcVehiclePassed => StartWarehouse(Null, 0)
    case WarehouseInProgress => CompleteWarehouse(None, Some(1.0), map[], 0)
    case IncomingCheckPending => SubmitIncomingCheck(InWeight(row).Some? && InWeight(row).value > MIN_WEIGHT, map[], 0)
    case IncomingCheckInProgress =>
      SubmitIncomingCheck(InWeight(row).Some? && InWeight(row).value > MIN_WEIGHT, map[], 0)
    case WeighOutDone => CheckOut(0)
    case _ => WeighOut(OutWeightFor(row), Null, Null, 0)
  }

  lemma NextStepAccepted(s: Dossier)
    requires Staged(s) && !Terminal(s.row.status) && CanFinish(s.row)
    ensures ReadForward(NextStep(s.row), s).None?
  {
    hide HasCurrent, VehicleVerdict, GbjChecklist.Decide, KnownInWeight;
    assert forall t :: t in LaterTables(s.row.status) ==> !HasCurrent(s.tables.Get(t));
    InWeightFallbackNeverNeeded(s);
    CleanFormPasses(s.row.processType);
    var later := LaterTables(s.row.status);
    assert InWeights in later ==> !HasCurrent(s.tables.Get(InWeights));
    assert OutWeights in later ==> !HasCurrent(s.tables.Get(OutWeights));
    assert VehicleChecks in later ==> !HasCurrent(s.tables.Get(VehicleChecks));
    assert MaterialChecks in later ==> !HasCurrent(s.tables.Get(MaterialChecks));
  }

  /** Accepted on the state it read, a step commits. */
  lemma AcceptedCommits(f: Forward, s: Dossier)
    requires Staged(s) && ReadForward(f, s).None? && !f.Void?
    ensures CommitForward(f, s, s).Ok?
  {
    hide HasCurrent, KnownInWeight, VehicleVerdict, Inserted, FinishedProcess, Annotated, VehicleRecord, Measured,
         LaterTables;
    DuplicateGuardsNeverFire(f, s);
  }

  lemma NextStepAdvances(s: Dossier)
    requires Lineages(s) && Staged(s) && !Terminal(s.row.status) && CanFinish(s.row)
    ensures var r := ApplyForward(NextStep(s.row), s);
      && r.Ok?
      && Rank(r.value.row.status) < Rank(s.row.status)
      && r.value.row.status != Cancelled
      && Lineages(r.value) && Staged(r.value)
      && (r.value.row.status == Completed || CanFinish(r.value.row))
  {
    NextStepAccepted(s);
    AcceptedCommits(NextStep(s.row), s);
    ForwardKeepsStage(NextStep(s.row), s);
    NextStepKeepsGoing(s);
  }

  lemma NextStepKeepsGoing(s: Dossier)
    requires Staged(s) && !Terminal(s.row.status) && CanFinish(s.row) && ApplyForward(NextStep(s.row), s).Ok?
    ensures var after := ApplyForward(NextStep(s.row), s).value.row;
      && Rank(after.status) < Rank(s.row.status)
      && after.status != Cancelled
      && (after.status == Completed || CanFinish(after))
  {
    hide CanFinish;
    CleanFormPasses(s.row.processType);
    var f := NextStep(s.row);
    var after := ApplyForward(f, s).value.row;
    if f.WeighIn? || f.WeighOut? {
      WeighingMovesOn(s);
    } else {
      ForwardEdge(f, s);
      OnlyWeighingTouchesWeights(f, s);
      EdgesDescend(s.row.status, after.status);
      NextStatus(s);
      if s.row.status != WeighOutDone {
        SameWeightCanFinish(s.row, after);
      }
    }
  }

  lemma WeighingMovesOn(s: Dossier)
    requires NextStep(s.row).WeighIn? || NextStep(s.row).WeighOut?
    requires Staged(s) && !Terminal(s.row.status) && ApplyForward(NextStep(s.row), s).Ok?
    ensures var after := ApplyForward(NextStep(s.row), s).value.row;
      Rank(after.status) < Rank(s.row.status) && after.status != Cancelled && CanFinish(after)
  {
    hide HasCurrent, KnownInWeight, Inserted, LaterTables, ActiveAt;
  }

  lemma NextStatus(s: Dossier)
    requires Staged(s) && !Terminal(s.row.status) && CanFinish(s.row) && ApplyForward(NextStep(s.row), s).Ok?
    requires !NextStep(s.row).WeighIn? && !NextStep(s.row).WeighOut?
    ensures var after := ApplyForward(NextStep(s.row), s).value.row;
      && after.status != s.row.status && after.status != Cancelled
      && (after.status == Completed <==> s.row.status == WeighOutDone)
      && (after.status == IncomingCheckPassed ==> InWeight(s.row).value > MIN_WEIGHT)
  {
    hide HasCurrent, KnownInWeight, VehicleVerdict, Inserted, FinishedProcess, VehicleRecord, Measured, LaterTables,
         ActiveAt;
    CleanFormPasses(s.row.processType);
  }

  lemma SameWeightCanFinish(before: Row, after: Row)
    requires CanFinish(before) && before.status != Registered && before.status != WeighOutDone
    requires InWeight(after) == InWeight(before)
    requires after.status == IncomingCheckPassed ==> InWeight(before).value > MIN_WEIGHT
    ensures CanFinish(after)
  {}

  lemma {:induction false} RunFront(rt: Runtime, s: Dossier, req: Request, reqs: seq<Request>)
    ensures Run(rt, s, [req] + reqs) == Run(rt, After(rt, s, req), reqs)
  {
    hide After;
    if reqs == [] {
      assert [req] + reqs == [] + [req];
      RunSnoc(rt, s, [], req);
    } else {
      var init := reqs[..|reqs| - 1];
      var last := reqs[|reqs| - 1];
      RunFront(rt, s, req, init);
      assert [req] + reqs == ([req] + init) + [last];
      RunSnoc(rt, s, [req] + init, last);
    }
  }

  lemma {:induction false} Finish(rt: Runtime, s: Dossier) returns (reqs: seq<Request>)
    requires Lineages(s) && Staged(s) && s.row.status != Cancelled
    requires !Terminal(s.row.status) ==> CanFinish(s.row)
    ensures NoCorrections(reqs) && Run(rt, s, reqs).row.status == Completed
    decreases Rank(s.row.status)
  {
    hide Staged, Lineages, NextStep, ApplyForward, CanFinish, Apply, After;
    if s.row.status == Completed {
      reqs := [];
    } else {
      NextStepAdvances(s);
      var step := Move(NextStep(s.row));
      var next := ApplyForward(NextStep(s.row), s).value;
      ApplyIsForward(rt, NextStep(s.row), s);
      AfterAccepted(rt, s, step);
      var rest := Finish(rt, next);
      RunFront(rt, s, step, rest);
      reqs := [step] + rest;
    }
  }

  lemma ApplyIsForward(rt: Runtime, f: Forward, s: Dossier)
    ensures Apply(rt, Move(f), s) == ApplyForward(f, s)
  {
    hide ReadForward, CommitForward;
  }

  // ----- States that cannot finish -----

  /** Cancelled, or short of a weight no forward step can supply. */
  ghost predicate Blocked(s: Dossier) {
    && Lineages(s) && Staged(s) && s.row.status != Completed
    && (s.row.status == Cancelled || !CanFinish(s.row))
  }

  lemma BlockedWeighing(f: Forward, s: Dossier)
    requires Staged(s) && s.row.status != Completed && (s.row.status == Cancelled || !CanFinish(s.row))
    requires f.WeighIn? || f.WeighOut?
    ensures ApplyForward(f, s).Err?
  {
    hide HasCurrent, KnownInWeight, Inserted, LaterTables, ActiveAt;
    InWeightFallbackNeverNeeded(s);
  }

  lemma OnlyWeighOutWeighsOut(f: Forward, s: Dossier)
    requires ApplyForward(f, s).Ok? && !f.WeighOut?
    ensures ApplyForward(f, s).value.row.status == WeighOutDone ==> s.row.status == WeighOutDone
  {
    hide HasCurrent, ActiveAt, Inserted, FinishedProcess, Annotated, VehicleRecord, VehicleVerdict, Measured,
         MaterialColumns;
  }

  lemma BlockedRow(f: Forward, s: Dossier)
    requires Staged(s) && s.row.status != Completed && (s.row.status == Cancelled || !CanFinish(s.row))
    requires ApplyForward(f, s).Ok?
    ensures var after := ApplyForward(f, s).value.row;
      after.status != Completed && (after.status == Cancelled || !CanFinish(after))
  {
    hide ApplyForward, Staged;
    if f.WeighIn? || f.WeighOut? {
      BlockedWeighing(f, s);
    } else {
      ForwardEdge(f, s);
      OnlyWeighOutWeighsOut(f, s);
      OnlyWeighingTouchesWeights(f, s);
    }
  }

  lemma {:induction false} BlockedForGood(rt: Runtime, s: Dossier, reqs: seq<Request>)
    requires Blocked(s) && NoCorrections(reqs)
    ensures Blocked(Run(rt, s, reqs))
  {
    if reqs != [] {
      var init := reqs[..|reqs| - 1];
      assert forall i :: 0 <= i < |init| ==> init[i] == reqs[i];
      BlockedForGood(rt, s, init);
      BlockedStays(rt, reqs[|reqs| - 1].step, Run(rt, s, init));
    }
  }

  lemma BlockedStays(rt: Runtime, f: Forward, s: Dossier)
    requires Blocked(s)
    ensures Blocked(After(rt, s, Move(f)))
  {
    hide Staged, Lineages, CanFinish, ReadForward, CommitForward;
    ApplyIsForward(rt, f, s);
    if ApplyForward(f, s).Ok? {
      BlockedRow(f, s);
      ForwardKeepsStage(f, s);
      KeptGivesStage(s, ApplyForward(f, s).value);
    }
  }

  lemma KeptGivesStage(before: Dossier, after: Dossier)
    requires Kept(before, after)
    ensures Lineages(after) && Staged(after)
  {}

  /**
   * No dead end: at every open state a run reaches, reopened ones included, forward calls alone can complete
   * the transaction exactly when the condition above holds.
   */
  lemma CompletableIff(rt: Runtime, pt: ProcessType, info: map<Field, Json>, past: seq<Request>)
    requires !Terminal(Run(rt, NewDossier(pt, info), past).row.status)
    ensures var s := Run(rt, NewDossier(pt, info), past); Completable(rt, s) <==> CanFinish(s.row)
  {
    hide Staged, Lineages, CanFinish;
    RunStaged(rt, pt, info, past);
    var s := Run(rt, NewDossier(pt, info), past);
    if CanFinish(s.row) {
      var reqs := Finish(rt, s);
      assert Completable(rt, s);
    } else {
      forall reqs | NoCorrections(reqs) ensures Run(rt, s, reqs).row.status != Completed {
        BlockedForGood(rt, s, reqs);
      }
    }
  }

  // ----- The two dead ends are reached -----

  const UNWEIGHED: seq<Request> := [
    Move(Cancel("", 0)),
    Correct(CorrectionRequest(ReopenWorkflow, Some(QcVehiclePending), 2, [], InWeights))]

  const WEIGHTLESS: seq<Request> := [
    Move(WeighIn(MIN_WEIGHT, Null, Null, 0)),
    Move(SubmitVehicleCheck(CLEAN_FORM, map[], Null, Null, 0)),
    Move(StartWarehouse(Null, 0)),
    Move(CompleteWarehouse(None, Some(1.0), map[], 0)),
    Move(SubmitIncomingCheck(true, map[], 0))]

  lemma UnweighedRow(rt: Runtime)
    ensures var row := Run(rt, NewDossier(GBB, map[]), UNWEIGHED).row;
      row.status == QcVehiclePending && !CanFinish(row)
  {
    hide After;
    var start := NewDossier(GBB, map[]);
    RunFront(rt, start, UNWEIGHED[0], [UNWEIGHED[1]]);
    assert [UNWEIGHED[0]] + [UNWEIGHED[1]] == UNWEIGHED;
    var cancelled := After(rt, start, UNWEIGHED[0]);
    CancelledRow(rt, start);
    RunFront(rt, cancelled, UNWEIGHED[1], []);
    assert [UNWEIGHED[1]] + [] == [UNWEIGHED[1]];
    ReopenedUnweighed(rt, cancelled);
  }

  lemma ReopenedUnweighed(rt: Runtime, s: Dossier)
    requires s.row.status == Cancelled && !s.row.isVoided && s.row.processType == GBB && s.row.revision == 2
    requires s.row.grossWeight.None? && s.row.tareWeight.None? && s.row.warehouseStartAt.None?
    ensures var row := After(rt, s, UNWEIGHED[1]).row; row.status == QcVehiclePending && !CanFinish(row)
  {
    hide ClearedTables, FraudAfter;
  }

  /** Cancelled before weigh-in and reopened to the vehicle check, a truck can never be weighed out. */
  lemma UnweighedIsStuck(rt: Runtime)
    ensures var s := Run(rt, NewDossier(GBB, map[]), UNWEIGHED);
      s.row.status == QcVehiclePending && !Completable(rt, s)
  {
    hide Run, Completable, CanFinish;
    UnweighedRow(rt);
    CompletableIff(rt, GBB, map[], UNWEIGHED);
  }

  /** An inbound truck weighed in at the scale's minimum. */
  ghost predicate Weightless(s: Dossier, status: Status) {
    && Lineages(s) && Staged(s)
    && s.row.status == status && s.row.processType == GBB && s.row.grossWeight == Some(MIN_WEIGHT)
  }

  lemma WeightlessWeighed(rt: Runtime)
    ensures var row := After(rt, NewDossier(GBB, map[]), WEIGHTLESS[0]).row;
      row.status == QcVehiclePending && row.processType == GBB && row.grossWeight == Some(MIN_WEIGHT)
  {}

  lemma WeightlessBegins(rt: Runtime)
    ensures Weightless(After(rt, NewDossier(GBB, map[]), WEIGHTLESS[0]), QcVehiclePending)
  {
    hide Lineages, Staged, After;
    FreshStaged(GBB, map[]);
    AfterKeepsStage(rt, WEIGHTLESS[0], NewDossier(GBB, map[]));
    WeightlessWeighed(rt);
  }

  lemma GoodsAccepted(s: Dossier)
    requires Weightless(s, IncomingCheckPending)
    ensures ReadForward(WEIGHTLESS[4].step, s).None?
  {
    hide HasCurrent;
    assert MaterialChecks in LaterTables(IncomingCheckPending) && !HasCurrent(s.tables.Get(MaterialChecks));
  }

  lemma StatusReached(f: Forward, s: Dossier, to: Status)
    requires ApplyForward(f, s).Ok? && s.row.processType == GBB
    requires
      || (f == WEIGHTLESS[1].step && to == QcVehiclePassed) || (f == WEIGHTLESS[2].step && to == WarehouseInProgress)
      || (f == WEIGHTLESS[3].step && to == IncomingCheckPending)
      || (f == WEIGHTLESS[4].step && to == IncomingCheckPassed)
    ensures ApplyForward(f, s).value.row.status == to
  {
    hide HasCurrent, ActiveAt, Inserted, FinishedProcess, VehicleRecord, VehicleVerdict, Measured, MaterialColumns;
    CleanFormPasses(GBB);
  }

  lemma WeightlessStep(rt: Runtime, f: Forward, s: Dossier, from: Status, to: Status)
    requires Weightless(s, from) && ReadForward(f, s).None?
    requires
      || (f == WEIGHTLESS[1].step && to == QcVehiclePassed) || (f == WEIGHTLESS[2].step && to == WarehouseInProgress)
      || (f == WEIGHTLESS[3].step && to == IncomingCheckPending)
      || (f == WEIGHTLESS[4].step && to == IncomingCheckPassed)
    ensures Weightless(After(rt, s, Move(f)), to)
  {
    hide ReadForward, CommitForward, Staged, Lineages, Apply, After;
    AcceptedCommits(f, s);
    ApplyIsForward(rt, f, s);
    AfterAccepted(rt, s, Move(f));
    OnlyWeighingTouchesWeights(f, s);
    StatusReached(f, s, to);
    AfterKeepsStage(rt, Move(f), s);
  }

  /** The steps in between are those a truck that can finish takes anyway. */
  lemma WeightlessAccepted(f: Forward, s: Dossier, from: Status)
    requires Weightless(s, from)
    requires
      || (f == WEIGHTLESS[1].step && from == QcVehiclePending) || (f == WEIGHTLESS[2].step && from == QcVehiclePassed)
      || (f == WEIGHTLESS[3].step && from == WarehouseInProgress)
    ensures ReadForward(f, s).None?
  {
    hide ReadForward, Staged, Lineages;
    NextStepAccepted(s);
  }

  lemma WeightlessUnloading(rt: Runtime)
    ensures Weightless(Run(rt, NewDossier(GBB, map[]), WEIGHTLESS[..3]), WarehouseInProgress)
  {
    hide After, Weightless, ReadForward, Run;
    var s0 := NewDossier(GBB, map[]);
    var s1 := After(rt, s0, WEIGHTLESS[0]);
    var s2 := After(rt, s1, WEIGHTLESS[1]);
    WeightlessBegins(rt);
    WeightlessAccepted(WEIGHTLESS[1].step, s1, QcVehiclePending);
    WeightlessStep(rt, WEIGHTLESS[1].step, s1, QcVehiclePending, QcVehiclePassed);
    WeightlessAccepted(WEIGHTLESS[2].step, s2, QcVehiclePassed);
    WeightlessStep(rt, WEIGHTLESS[2].step, s2, QcVehiclePassed, WarehouseInProgress);
    RunOfFive(rt, s0, WEIGHTLESS);
  }

  lemma WeightlessRun(rt: Runtime)
    ensures Weightless(Run(rt, NewDossier(GBB, map[]), WEIGHTLESS), IncomingCheckPassed)
  {
    hide After, Weightless, ReadForward, Run;
    var s3 := Run(rt, NewDossier(GBB, map[]), WEIGHTLESS[..3]);
    var s4 := After(rt, s3, WEIGHTLESS[3]);
    WeightlessUnloading(rt);
    WeightlessAccepted(WEIGHTLESS[3].step, s3, WarehouseInProgress);
    WeightlessStep(rt, WEIGHTLESS[3].step, s3, WarehouseInProgress, IncomingCheckPending);
    GoodsAccepted(s4);
    WeightlessStep(rt, WEIGHTLESS[4].step, s4, IncomingCheckPending, IncomingCheckPassed);
    RunOfFive(rt, NewDossier(GBB, map[]), WEIGHTLESS);
  }

  lemma RunOfFive(rt: Runtime, s: Dossier, reqs: seq<Request>)
    requires |reqs| == 5
    ensures Run(rt, s, reqs[..3]) == After(rt, After(rt, After(rt, s, reqs[0]), reqs[1]), reqs[2])
    ensures Run(rt, s, reqs) == After(rt, After(rt, Run(rt, s, reqs[..3]), reqs[3]), reqs[4])
  {
    hide After;
    assert reqs[..4][..3] == reqs[..3] && reqs[..3][..2] == reqs[..2] && reqs[..2][..1] == reqs[..1]
      && reqs[..1][..0] == [];
    assert Run(rt, s, reqs[..1]) == After(rt, s, reqs[0]);
    assert Run(rt, s, reqs[..2]) == After(rt, Run(rt, s, reqs[..1]), reqs[1]);
    assert Run(rt, s, reqs[..3]) == After(rt, Run(rt, s, reqs[..2]), reqs[2]);
    assert Run(rt, s, reqs[..4]) == After(rt, Run(rt, s, reqs[..3]), reqs[3]);
  }

  /** Weighed in at the scale's minimum, a truck whose goods are accepted can never be weighed out. */
  lemma WeightlessIsStuck(rt: Runtime)
    ensures var s := Run(rt, NewDossier(GBB, map[]), WEIGHTLESS);
      s.row.status == IncomingCheckPassed && !Completable(rt, s)
  {
    hide Run, Completable, Lineages, Staged;
    WeightlessRun(rt);
    CompletableIff(rt, GBB, map[], WEIGHTLESS);
  }

  /** Until it is weighed out again, an open transaction never shows more tare than gross. */
  predicate OpenWeights(row: Row) {
    !Terminal(row.status) && row.status != WeighOutDone ==> !GrossUnderTare(row)
  }

  lemma ForwardKeepsOpenWeights(f: Forward, s: Dossier)
    requires Staged(s) && OpenWeights(s.row) && ApplyForward(f, s).Ok?
    ensures OpenWeights(ApplyForward(f, s).value.row)
  {
    hide ApplyForward, Staged;
    if f.WeighIn? || f.WeighOut? {
      WeighingKeepsOpenWeights(f, s);
    } else {
      ForwardEdge(f, s);
      OnlyWeighingTouchesWeights(f, s);
    }
  }

  lemma WeighingKeepsOpenWeights(f: Forward, s: Dossier)
    requires Staged(s) && (f.WeighIn? || f.WeighOut?) && ApplyForward(f, s).Ok?
    ensures OpenWeights(ApplyForward(f, s).value.row)
  {
    hide HasCurrent, Inserted, KnownInWeight, LaterTables, ActiveAt;
  }

  lemma ReopenKeepsOpenWeights(req: CorrectionRequest, target: Status, s: Dossier)
    requires Reopen(req, target, s).Ok?
    ensures OpenWeights(Reopen(req, target, s).value.row)
  {
    hide ClearedTables, FraudAfter, StartsAfterEnd;
  }

  lemma {:induction false} RunOpenWeights(rt: Runtime, pt: ProcessType, info: map<Field, Json>, reqs: seq<Request>)
    ensures OpenWeights(Run(rt, NewDossier(pt, info), reqs).row)
  {
    hide Staged, Lineages, ReadForward, CommitForward, CorrectRecords, Reopen;
    if reqs != [] {
      var init, req := reqs[..|reqs| - 1], reqs[|reqs| - 1];
      var before := Run(rt, NewDossier(pt, info), init);
      RunOpenWeights(rt, pt, info, init);
      RunStaged(rt, pt, info, init);
      if Apply(rt, req, before).Ok? {
        match req
        case Move(f) => ForwardKeepsOpenWeights(f, before);
        case Correct(c) =>
          if c.action == ReopenWorkflow {
            ReopenKeepsOpenWeights(c, c.reopenTarget.value, before);
          } else {
            DataCorrectionKeepsStatus(rt, c, before);
          }
      }
    }
  }

  // ----- Warehouse times -----

  /** Warehouse times on the row belong to a current process. */
  predicate TimesBacked(s: Dossier) {
    s.row.warehouseStartAt.Some? || s.row.warehouseEndAt.Some? ==> HasCurrent(s.tables.warehousing)
  }

  lemma WarehouseKeepsTimes(f: Forward, s: Dossier)
    requires Lineages(s) && Staged(s) && TimesBacked(s) && ApplyForward(f, s).Ok?
    requires f.StartWarehouse? || f.CompleteWarehouse? || f.CompleteAnalysis?
    ensures TimesBacked(ApplyForward(f, s).value)
  {
    hide Measured, LaterTables, MaxRevision;
    var after := ApplyForward(f, s).value.tables.warehousing;
    if f.StartWarehouse? {
      assert after[|after| - 1].isCurrent;
    } else {
      OpenProcessIsLast(s);
      hide Lineages, Staged, ActiveAt;
      assert after[|after| - 1].isCurrent;
    }
  }

  lemma OthersKeepTimes(f: Forward, s: Dossier)
    requires TimesBacked(s) && ApplyForward(f, s).Ok?
    requires !f.StartWarehouse? && !f.CompleteWarehouse? && !f.CompleteAnalysis?
    ensures TimesBacked(ApplyForward(f, s).value)
  {
    hide HasCurrent, Inserted, VehicleRecord, VehicleVerdict, KnownInWeight, Assess;
  }

  lemma ReopenKeepsTimes(req: CorrectionRequest, target: Status, s: Dossier)
    requires Lineages(s) && Staged(s) && TimesBacked(s) && Reopen(req, target, s).Ok?
    ensures TimesBacked(Reopen(req, target, s).value)
  {
    hide ClearedTables, FraudAfter, GrossUnderTare, StartsAfterEnd, HasCurrent, Lineages, Staged;
    ReopenKeepsStage(req, target, s);
    var after := Reopen(req, target, s).value;
    assert HasCurrent(after.tables.Get(Warehousing)) <==>
      Warehousing !in LaterTables(EffectiveTarget(target)) && HasCurrent(s.tables.Get(Warehousing));
  }

  predicate WarehouseTime(f: Field) {
    f == WarehouseStartAt || f == WarehouseEndAt
  }

  lemma {:induction false} RecordWritesTime(
    rt: Runtime, pt: ProcessType, t: TableId, changes: map<Field, Json>, items: seq<Item>, f: Field)
    requires WarehouseTime(f) && t != Warehousing
    ensures f in RecordChanges(rt, pt, t, changes, items) <==> f in changes
  {
    if items != [] {
      RecordWritesTime(rt, pt, t, changes, items[..|items| - 1], f);
    }
  }

  lemma {:induction false} GroupsWriteTime(
    rt: Runtime, pt: ProcessType, changes: map<Field, Json>, groups: seq<Group>, f: Field)
    requires WarehouseTime(f) && f !in changes && f in GroupChanges(rt, pt, changes, groups)
    ensures exists k :: 0 <= k < |groups| && groups[k].ref.table == Warehousing
  {
    hide RecordChanges;
    var init, g := groups[..|groups| - 1], groups[|groups| - 1];
    if g.ref.table != Warehousing {
      RecordWritesTime(rt, pt, g.ref.table, GroupChanges(rt, pt, changes, init), g.items, f);
      GroupsWriteTime(rt, pt, changes, init, f);
      var k :| 0 <= k < |init| && init[k].ref.table == Warehousing;
      assert groups[k] == init[k];
    }
  }

  lemma {:induction false} RootsWriteNoTime(roots: seq<Item>, f: Field)
    requires WarehouseTime(f)
    requires forall k :: 0 <= k < |roots| ==>
      IsRoot(roots[k].targetModule) && roots[k].field in Allowlist(roots[k].targetModule)
    ensures f !in RootChanges(roots)
  {
    if roots != [] {
      RootsWriteNoTime(roots[..|roots| - 1], f);
      var m := roots[|roots| - 1].targetModule;
      assert f !in Allowlist(m) by {
        assert m == TransactionModule || m == StatusModule || m == RemarkModule;
      }
    }
  }

  lemma FreshGroupCurrent(tables: Tables, groups: seq<Group>, k: nat)
    requires GroupsFresh(tables, groups) && k < |groups| && groups[k].ref.table == Warehousing
    ensures HasCurrent(tables.warehousing)
  {
    assert tables.Get(Warehousing)[groups[k].ref.index].isCurrent;
  }

  /** A correction writes a warehouse time only through the current process. */
  lemma TimeNeedsProcess(rt: Runtime, req: CorrectionRequest, s: Dossier, f: Field)
    requires CorrectRecords(rt, req, s).Ok? && WarehouseTime(f)
    ensures f in RowChanges(rt, s.row.processType, SortedOf(rt, req, s)) ==> HasCurrent(s.tables.warehousing)
  {
    hide CorrectRecords, SortItems, GroupChanges, RootChanges, GroupsFresh, HasCurrent, Allowlist;
    SortedOk(rt, req, s);
    var sorted := SortedOf(rt, req, s);
    SortItemsFresh(rt, s.tables, req.lastWeighbridge, req.items);
    RootsWriteNoTime(sorted.roots, f);
    if f in RowChanges(rt, s.row.processType, sorted) {
      GroupsWriteTime(rt, s.row.processType, RootChanges(sorted.roots), sorted.groups, f);
      var k :| 0 <= k < |sorted.groups| && sorted.groups[k].ref.table == Warehousing;
      FreshGroupCurrent(s.tables, sorted.groups, k);
    }
  }

  lemma CorrectedTimes(rt: Runtime, req: CorrectionRequest, s: Dossier)
    requires CorrectRecords(rt, req, s).Ok?
    ensures var changes := RowChanges(rt, s.row.processType, SortedOf(rt, req, s));
      var after := CorrectRecords(rt, req, s).value.row;
      && (after.warehouseStartAt.Some? ==> s.row.warehouseStartAt.Some? || WarehouseStartAt in changes)
      && (after.warehouseEndAt.Some? ==> s.row.warehouseEndAt.Some? || WarehouseEndAt in changes)
  {
    hide SortItems, RowChanges, HasChanges, ChangesTaken, SupersedeGroups, FraudAfter, GrossUnderTare, StartsAfterEnd;
  }

  lemma DataCorrectionKeepsTimes(rt: Runtime, req: CorrectionRequest, s: Dossier)
    requires Lineages(s) && TimesBacked(s) && CorrectRecords(rt, req, s).Ok?
    ensures TimesBacked(CorrectRecords(rt, req, s).value)
  {
    hide CorrectRecords, RowChanges, Lineages, HasCurrent;
    CorrectionShape(rt, req, s);
    CorrectedTimes(rt, req, s);
    TimeNeedsProcess(rt, req, s, WarehouseStartAt);
    TimeNeedsProcess(rt, req, s, WarehouseEndAt);
    var after := CorrectRecords(rt, req, s).value;
    assert HasCurrent(after.tables.Get(Warehousing)) <==> HasCurrent(s.tables.Get(Warehousing));
  }

  /** In every run warehouse times on the row belong to a current process. */
  lemma {:induction false} RunTimesBacked(rt: Runtime, pt: ProcessType, info: map<Field, Json>, reqs: seq<Request>)
    ensures TimesBacked(Run(rt, NewDossier(pt, info), reqs))
  {
    hide Staged, Lineages, TimesBacked, ReadForward, CommitForward, CorrectRecords, Reopen;
    if reqs == [] {
      FreshTimes(pt, info);
    } else {
      var init, req := reqs[..|reqs| - 1], reqs[|reqs| - 1];
      var before := Run(rt, NewDossier(pt, info), init);
      RunTimesBacked(rt, pt, info, init);
      RunStaged(rt, pt, info, init);
      if Apply(rt, req, before).Ok? {
        match req
        case Move(f) =>
          if f.StartWarehouse? || f.CompleteWarehouse? || f.CompleteAnalysis? {
            WarehouseKeepsTimes(f, before);
          } else {
            OthersKeepTimes(f, before);
          }
        case Correct(c) =>
          if c.action == ReopenWorkflow {
            ReopenKeepsTimes(c, c.reopenTarget.value, before);
          } else {
            DataCorrectionKeepsTimes(rt, c, before);
          }
      }
    }
  }

  lemma FreshTimes(pt: ProcessType, info: map<Field, Json>)
    ensures TimesBacked(NewDossier(pt, info))
  {}

  // ----- Setting the end right -----

  /** Dates come back as they were sent, are accepted as an end, and print differently when they differ. */
  ghost predicate DatesUsable(rt: Runtime) {
    && (forall t: int :: rt.date(Date(t)) == Some(t) && rt.accepts(EndAt, Date(t)))
    && (forall t: int, u: int :: t != u ==> rt.stringify(Date(t)) != rt.stringify(Date(u)))
  }

  function EndFix(revision: int, end: int): CorrectionRequest {
    CorrectionRequest(CorrectData, None, revision, [Item(WarehouseModule, None, EndAt, Date(end))], InWeights)
  }

  lemma EndFixAllowed(rt: Runtime, pt: ProcessType, it: Item)
    requires it.targetModule == WarehouseModule && it.field == EndAt && rt.date(it.newValue).Some?
    ensures it.field in Allowlist(it.targetModule) && DomainValid(rt, it.field, it.newValue) && Normalized(it) == it
    ensures ItemChanges(rt, pt, Warehousing, map[], it) == map[WarehouseEndAt := Date(rt.date(it.newValue).value)]
  {}

  lemma EndFixTarget(tables: Tables, it: Item, last: TableId)
    requires it.targetModule == WarehouseModule && it.target.None?
    ensures TargetRef(tables, it, last) ==
      if CurrentAt(tables.warehousing).Some? then Some(Ref(Warehousing, CurrentAt(tables.warehousing).value)) else None
  {
    hide CurrentAt;
  }

  lemma EndFixSorted(rt: Runtime, s: Dossier, end: int, at: nat)
    requires rt.date(Date(end)) == Some(end) && CurrentAt(s.tables.warehousing) == Some(at)
    ensures var items := EndFix(s.row.revision, end).items;
      var g := Group(WarehouseModule, Ref(Warehousing, at), s.tables.warehousing[at], items);
      var sorted := SortItems(rt, s.tables, InWeights, items);
      && sorted == Ok(Sorted([], [g]))
      && RowChanges(rt, s.row.processType, sorted.value) == map[WarehouseEndAt := Date(end)]
  {
    hide CurrentAt, SortItems, RowChanges, Allowlist, DomainValid, Normalized, TargetRef, ItemChanges;
    var it := EndFix(s.row.revision, end).items[0];
    var g := Group(WarehouseModule, Ref(Warehousing, at), s.tables.warehousing[at], [it]);
    EndFixAllowed(rt, s.row.processType, it);
    EndFixTarget(s.tables, it, InWeights);
    SortOne(rt, s.tables, InWeights, it);
    assert [] + [g] == [g];
    ChangesOfGroup(rt, s.row.processType, WarehouseModule, g.ref, g.rec, it);
  }

  lemma EndFixSupersedes(rt: Runtime, s: Dossier, end: int, at: nat, db: Dossier)
    requires DatesUsable(rt) && CurrentAt(s.tables.warehousing) == Some(at) && db.tables == s.tables
    ensures var items := EndFix(s.row.revision, end).items;
      var g := Group(WarehouseModule, Ref(Warehousing, at), s.tables.warehousing[at], items);
      SupersedeGroups(rt, |s.corrections|, [g], db).Ok?
  {
    hide CurrentAt, Edited, Restrict, StoredGroup;
    var items := EndFix(s.row.revision, end).items;
    var g := Group(WarehouseModule, Ref(Warehousing, at), s.tables.warehousing[at], items);
    assert [g][..0] == [];
    assert rt.date(Date(end)) == Some(end) && rt.accepts(EndAt, Date(end));
  }

  lemma DateUsable(rt: Runtime, t: int)
    requires DatesUsable(rt)
    ensures rt.date(Date(t)) == Some(t)
  {}

  lemma EndFixAccepted(rt: Runtime, s: Dossier, end: int, at: nat)
    requires DatesUsable(rt) && CurrentAt(s.tables.warehousing) == Some(at) && !GrossUnderTare(s.row)
    requires s.row.warehouseStartAt.Some? && s.row.warehouseStartAt.value <= end
    requires rt.stringify(FieldOf(s.tables.warehousing[at].fields, EndAt)) != rt.stringify(Date(end))
    ensures var r := CorrectRecords(rt, EndFix(s.row.revision, end), s);
      && r.Ok? && !GrossUnderTare(r.value.row) && !StartsAfterEnd(r.value.row)
      && r.value.row.status == s.row.status && r.value.row.isVoided == s.row.isVoided
  {
    hide SortItems, RowChanges, SupersedeGroups, CurrentAt, FraudAfter, DatesUsable;
    var req := EndFix(s.row.revision, end);
    DateUsable(rt, end);
    EndFixSorted(rt, s, end, at);
    var sorted := SortItems(rt, s.tables, InWeights, req.items).value;
    assert GroupChanged(rt, sorted.groups[0]) by {
      assert sorted.groups[0].items[0].field == EndAt;
    }
    assert HasChanges(rt, s.row, sorted);
    EndFixSupersedes(rt, s, end, at, Headed(req, sorted, s));
  }

  /** An end not before the start, and not the one already recorded. */
  lemma EndFixable(rt: Runtime, s: Dossier) returns (fix: CorrectionRequest)
    requires DatesUsable(rt) && Terminal(s.row.status) && !GrossUnderTare(s.row) && StartsAfterEnd(s.row)
      && TimesBacked(s)
    ensures var r := Apply(rt, Correct(fix), s);
      && r.Ok? && !GrossUnderTare(r.value.row) && !StartsAfterEnd(r.value.row)
      && r.value.row.status == s.row.status && r.value.row.isVoided == s.row.isVoided
  {
    hide CorrectRecords, CurrentAt, GrossUnderTare;
    var at := CurrentAt(s.tables.warehousing).value;
    var start := s.row.warehouseStartAt.value;
    var now := rt.stringify(FieldOf(s.tables.warehousing[at].fields, EndAt));
    assert rt.stringify(Date(start)) != rt.stringify(Date(start + 1));
    var end := if now != rt.stringify(Date(start)) then start else start + 1;
    EndFixAccepted(rt, s, end, at);
    fix := EndFix(s.row.revision, end);
  }

  // ----- Recovery -----

  /**
   * With an administrator's help every open transaction can be completed: cancel it, set the warehouse times right if
   * the end is recorded before the start, reopen it, and run it again. Only the second of these needs dates to be
   * usable.
   */
  lemma RecoverableByReopening(rt: Runtime, pt: ProcessType, info: map<Field, Json>, past: seq<Request>)
    requires var s := Run(rt, NewDossier(pt, info), past);
      !Terminal(s.row.status) && (StartsAfterEnd(s.row) ==> DatesUsable(rt))
    ensures exists reqs :: Run(rt, Run(rt, NewDossier(pt, info), past), reqs).row.status == Completed
  {
    hide Staged, Lineages, After, GrossUnderTare, StartsAfterEnd, TimesBacked, DatesUsable;
    var s := Run(rt, NewDossier(pt, info), past);
    RunStaged(rt, pt, info, past);
    if CanFinish(s.row) {
      var reqs := Finish(rt, s);
    } else {
      RunVoidedIsCancelled(rt, pt, info, past);
      RunOpenWeights(rt, pt, info, past);
      RunTimesBacked(rt, pt, info, past);
      RecoverStaged(rt, s);
    }
  }

  lemma RecoverStaged(rt: Runtime, s: Dossier)
    requires Lineages(s) && Staged(s) && TimesBacked(s) && !Terminal(s.row.status) && !s.row.isVoided
      && !GrossUnderTare(s.row)
    requires StartsAfterEnd(s.row) ==> DatesUsable(rt)
    ensures exists reqs :: Run(rt, s, reqs).row.status == Completed
  {
    hide Staged, Lineages, Apply, After, DatesUsable;
    var cancel := Move(Cancel("", 0));
    var cancelled := After(rt, s, cancel);
    CancelledRow(rt, s);
    AfterKeepsStage(rt, cancel, s);
    if StartsAfterEnd(cancelled.row) {
      var fix := EndFixable(rt, cancelled);
      AfterAccepted(rt, cancelled, Correct(fix));
      AfterKeepsStage(rt, Correct(fix), cancelled);
      var reqs := ReopenAndFinish(rt, After(rt, cancelled, Correct(fix)));
      RunFront(rt, cancelled, Correct(fix), reqs);
      RunFront(rt, s, cancel, [Correct(fix)] + reqs);
    } else {
      var reqs := ReopenAndFinish(rt, cancelled);
      RunFront(rt, s, cancel, reqs);
    }
  }

  lemma AfterAccepted(rt: Runtime, s: Dossier, req: Request)
    requires Apply(rt, req, s).Ok?
    ensures After(rt, s, req) == Apply(rt, req, s).value
  {
    hide Apply;
  }

  lemma ReopenAndFinish(rt: Runtime, s: Dossier) returns (reqs: seq<Request>)
    requires Lineages(s) && Staged(s)
    requires s.row.status == Cancelled && !s.row.isVoided && !GrossUnderTare(s.row) && !StartsAfterEnd(s.row)
    ensures Run(rt, s, reqs).row.status == Completed
  {
    hide Staged, Lineages, Apply, After;
    var reopen := Correct(CorrectionRequest(ReopenWorkflow, Some(Registered), s.row.revision, [], InWeights));
    ReopenToStart(rt, s);
    AfterAccepted(rt, s, reopen);
    AfterKeepsStage(rt, reopen, s);
    var rest := Finish(rt, After(rt, s, reopen));
    RunFront(rt, s, reopen, rest);
    reqs := [reopen] + rest;
  }

  lemma AfterKeepsStage(rt: Runtime, req: Request, s: Dossier)
    requires Lineages(s) && Staged(s)
    ensures Lineages(After(rt, s, req)) && Staged(After(rt, s, req))
  {
    hide Staged, Lineages;
    if Apply(rt, req, s).Ok? {
      ApplyKeepsStage(rt, req, s);
    }
  }

  lemma ReopenOk(c: CorrectionRequest, s: Dossier)
    requires !GrossUnderTare(s.row) && !StartsAfterEnd(s.row)
    ensures Reopen(c, Registered, s).Ok? && Reopen(c, Registered, s).value.row.status == Registered
  {
    hide ClearedTables;
  }

  lemma ReopenToStart(rt: Runtime, s: Dossier)
    requires Terminal(s.row.status) && !s.row.isVoided && !GrossUnderTare(s.row) && !StartsAfterEnd(s.row)
    ensures var c := CorrectionRequest(ReopenWorkflow, Some(Registered), s.row.revision, [], InWeights);
      Apply(rt, Correct(c), s).Ok? && Apply(rt, Correct(c), s).value.row.status == Registered
  {
    hide Reopen, CorrectRecords, GrossUnderTare, StartsAfterEnd;
    ReopenOk(CorrectionRequest(ReopenWorkflow, Some(Registered), s.row.revision, [], InWeights), s);
  }
}
