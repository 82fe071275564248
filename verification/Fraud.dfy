/** The newest fraud check against the weights it judges, and the finality of an administrative void. */
module Fraud {
  import opened Prelude
  import opened Workflow
  import opened Records
  import opened Steps
  import opened Corrections
  import opened Protocol
  import opened Stages
  import opened Weights
  import opened StatusHistory

  /**
   * A check judges the weights: its deviation is their distance, and its level says whether that is over 5 per cent of
   * the net weight, over 2, or neither; against a net weight of zero nothing deviates.
   */
  ghost predicate Judges(check: FraudCheck, net: real, actual: real) {
    && check.deviation == (if net >= actual then net - actual else actual - net)
    && (check.riskLevel == Critical <==> net > 0.0 && check.deviation / net * 100.0 > 5.0)
    && (check.riskLevel == Warning <==> net > 0.0 && 2.0 < check.deviation / net * 100.0 <= 5.0)
    && (check.riskLevel == Safe <==> net > 0.0 ==> check.deviation / net * 100.0 <= 2.0)
  }

  /** Once weighed out, the newest check judges the present weights. */
  ghost predicate Assessed(s: Dossier) {
    s.row.status in {WeighOutDone, Completed} && s.row.netWeight.Some? && s.row.netWeight.value > 0.0
      && s.row.actualWeight.Some? ==>
      s.fraudChecks != [] && Judges(s.fraudChecks[|s.fraudChecks| - 1], s.row.netWeight.value, s.row.actualWeight.value)
  }

  /** The level is the source's comparison of the percentage deviation with 5 and 2, without dividing. */
  lemma RiskByPercentage(net: real, deviation: real)
    requires net > 0.0
    ensures var percent := deviation / net * 100.0;
      RiskOf(net, deviation) == if percent > 5.0 then Critical else if percent > 2.0 then Warning else Safe
  {
    var percent := deviation / net * 100.0;
    assert percent * net == deviation * 100.0;
    ScaleCompare(percent, 5.0, net);
    ScaleCompare(percent, 2.0, net);
  }

  lemma ScaleCompare(a: real, b: real, k: real)
    requires k > 0.0
    ensures a > b <==> a * k > b * k
  {
    if a > b {
      assert (a - b) * k > 0.0;
    } else {
      assert (b - a) * k >= 0.0;
    }
  }

  lemma AssessJudges(net: real, actual: real)
    ensures Judges(Assess(net, actual), net, actual)
  {
    if net > 0.0 {
      RiskByPercentage(net, Abs(net - actual));
    }
  }

  /** A weigh-out is judged exactly when the warehouse measured a weight, a net weight of zero as safe. */
  lemma WeighOutJudged(weight: real, ticket: Json, remarks: Json, now: int, s: Dossier)
    requires ReadWeighOut(weight, s).None? && CommitWeighOut(weight, ticket, remarks, now, s, s).Ok?
    ensures var after := CommitWeighOut(weight, ticket, remarks, now, s, s).value;
      && after.row.netWeight.Some?
      && (s.row.actualWeight.None? ==> after.fraudChecks == s.fraudChecks)
      && (s.row.actualWeight.Some? ==>
          && |after.fraudChecks| == |s.fraudChecks| + 1 && after.fraudChecks[..|s.fraudChecks|] == s.fraudChecks
          && Judges(after.fraudChecks[|s.fraudChecks|], after.row.netWeight.value, s.row.actualWeight.value)
          && (after.row.netWeight.value == 0.0 ==> after.fraudChecks[|s.fraudChecks|].riskLevel == Safe))
  {
    hide HasCurrent, Inserted, WeighRecord, TransitionAllowed, KnownInWeight, Assess, Judges;
    var after := CommitWeighOut(weight, ticket, remarks, now, s, s).value;
    if s.row.actualWeight.Some? {
      AssessJudges(after.row.netWeight.value, s.row.actualWeight.value);
      ZeroNetSafe(after.row.netWeight.value, s.row.actualWeight.value);
    }
  }

  lemma ZeroNetSafe(net: real, actual: real)
    ensures Judges(Assess(net, actual), net, actual) && net == 0.0 ==> Assess(net, actual).riskLevel == Safe
  {}

  lemma ForwardKeepsAssessed(f: Forward, s: Dossier)
    requires Assessed(s) && ApplyForward(f, s).Ok?
    ensures Assessed(ApplyForward(f, s).value)
  {
    hide HasCurrent, CurrentAt, Inserted, FinishedProcess, Annotated, VehicleRecord, VehicleVerdict, Measured,
         KnownInWeight, Assess, Judges;
    if f.WeighOut? {
      WeighOutJudged(f.weight, f.ticket, f.remarks, f.now, s);
    } else if !f.WeighIn? {
      OnlyWeighingTouchesWeights(f, s);
    }
  }

  /** A correction adds one check of the weights it leaves when both are there and the net weight is positive. */
  lemma CorrectionAssesses(rt: Runtime, c: CorrectionRequest, s: Dossier)
    requires ReadCorrection(c).None? && CommitCorrection(rt, c, s).Ok?
    ensures Assessed(CommitCorrection(rt, c, s).value)
    ensures var after := CommitCorrection(rt, c, s).value;
      if after.row.netWeight.Some? && after.row.actualWeight.Some? && after.row.netWeight.value > 0.0 then
        && |after.fraudChecks| == |s.fraudChecks| + 1 && after.fraudChecks[..|s.fraudChecks|] == s.fraudChecks
        && Judges(after.fraudChecks[|s.fraudChecks|], after.row.netWeight.value, after.row.actualWeight.value)
      else after.fraudChecks == s.fraudChecks
  {
    hide SortItems, SupersedeGroups, RowChanges, HasChanges, ChangesTaken, ClearedTables, Assess, Judges, WithNet,
         ChangedRow, ReopenedRow;
    var row := CommitCorrection(rt, c, s).value.row;
    if row.netWeight.Some? && row.actualWeight.Some? {
      AssessJudges(row.netWeight.value, row.actualWeight.value);
    }
    ChecksAfter(rt, c, s);
  }

  lemma ChecksAfter(rt: Runtime, c: CorrectionRequest, s: Dossier)
    requires ReadCorrection(c).None? && CommitCorrection(rt, c, s).Ok?
    ensures var after := CommitCorrection(rt, c, s).value; after.fraudChecks == s.fraudChecks + FraudAfter(after.row)
  {
    hide SortItems, RowChanges, HasChanges, ChangesTaken, ClearedTables, WithNet, ChangedRow, ReopenedRow, FraudAfter,
         SupersedeGroups;
  }

  lemma {:induction false} RunAssessed(rt: Runtime, pt: ProcessType, info: map<Field, Json>, reqs: seq<Request>)
    ensures Assessed(Run(rt, NewDossier(pt, info), reqs))
  {
    if reqs != [] {
      var init := reqs[..|reqs| - 1];
      var req := reqs[|reqs| - 1];
      var before := Run(rt, NewDossier(pt, info), init);
      RunAssessed(rt, pt, info, init);
      if Apply(rt, req, before).Ok? {
        match req
        case Move(f) => ForwardKeepsAssessed(f, before);
        case Correct(c) => CorrectionAssesses(rt, c, before);
      }
    }
  }

  // ----- Void -----

  lemma VoidedStaysVoided(rt: Runtime, req: Request, s: Dossier)
    requires s.row.isVoided && s.row.status == Cancelled
    ensures var after := After(rt, s, req); after.row.isVoided && after.row.status == Cancelled
  {
    match req
    case Move(f) => CancelledAcceptsOnlyVoid(f, s);
    case Correct(c) =>
      if ReadCorrection(c).None? && c.action != ReopenWorkflow && CorrectRecords(rt, c, s).Ok? {
        DataCorrectionKeepsStatus(rt, c, s);
      }
  }

  lemma CancelledAcceptsOnlyVoid(f: Forward, s: Dossier)
    requires s.row.status == Cancelled
    ensures ReadForward(f, s).None? ==> f.Void? && !s.row.isVoided
  {
    hide HasCurrent, KnownInWeight, VehicleVerdict;
  }

  lemma {:induction false} VoidedForGood(rt: Runtime, s: Dossier, reqs: seq<Request>)
    requires s.row.isVoided && s.row.status == Cancelled
    ensures var after := Run(rt, s, reqs); after.row.isVoided && after.row.status == Cancelled
  {
    if reqs != [] {
      VoidedForGood(rt, s, reqs[..|reqs| - 1]);
      VoidedStaysVoided(rt, reqs[|reqs| - 1], Run(rt, s, reqs[..|reqs| - 1]));
    }
  }

  /** A void leaves the transaction cancelled and voided; in every run a voided transaction is cancelled. */
  lemma {:induction false} RunVoidedIsCancelled(
    rt: Runtime, pt: ProcessType, info: map<Field, Json>, reqs: seq<Request>)
    ensures var s := Run(rt, NewDossier(pt, info), reqs); s.row.isVoided ==> s.row.status == Cancelled
  {
    if reqs != [] {
      var init := reqs[..|reqs| - 1];
      var before := Run(rt, NewDossier(pt, info), init);
      RunVoidedIsCancelled(rt, pt, info, init);
      if before.row.isVoided {
        VoidedStaysVoided(rt, reqs[|reqs| - 1], before);
      } else if Apply(rt, reqs[|reqs| - 1], before).Ok? {
        OnlyVoidVoids(rt, reqs[|reqs| - 1], before);
      }
    }
  }

  lemma OnlyVoidVoids(rt: Runtime, req: Request, s: Dossier)
    requires !s.row.isVoided && Apply(rt, req, s).Ok?
    ensures var after := Apply(rt, req, s).value;
      if req.Move? && req.step.Void? then after.row.isVoided && after.row.status == Cancelled else !after.row.isVoided
  {
    hide HasCurrent, CurrentAt, Inserted, FinishedProcess, Annotated, VehicleRecord, VehicleVerdict, Measured,
         KnownInWeight, SortItems, SupersedeGroups, RowChanges, HasChanges, ChangesTaken, ClearedTables;
  }
}
