/** The status history of a transaction: a chain, drawn from the status graph and reopenings, of bounded length. */
module StatusHistory {
  import opened Prelude
  import opened Workflow
  import opened Records
  import opened Steps
  import opened Corrections
  import opened Protocol
  import opened Stages

  predicate EdgeAllowed(pt: ProcessType, from: Status, to: Status) {
    || (TransitionAllowed(from, to) && from != to)
    || (Terminal(from) && to in ReopenTargets(pt))
  }

  /** A chain from registration to the row's status, every edge allowed for the process type. */
  ghost predicate Chained(s: Dossier) {
    && s.history != []
    && s.history[0] == Edge(None, Registered)
    && s.history[|s.history| - 1].to == s.row.status
    && forall i :: 0 < i < |s.history| ==>
      && s.history[i].from == Some(s.history[i - 1].to)
      && EdgeAllowed(s.row.processType, s.history[i - 1].to, s.history[i].to)
  }

  function Reopenings(history: seq<Edge>): nat {
    if history == [] then 0
    else
      var last := history[|history| - 1];
      Reopenings(history[..|history| - 1]) + if last.from.Some? && Terminal(last.from.value) then 1 else 0
  }

  /** Ten entries for each pass through the graph, less what is left of the last one. */
  ghost predicate Bounded(s: Dossier) {
    |s.history| + Rank(s.row.status) <= 10 * (1 + Reopenings(s.history))
  }

  lemma AppendEdge(s: Dossier, after: Dossier, to: Status)
    requires Chained(s) && Bounded(s)
    requires after.history == s.history + [Edge(Some(s.row.status), to)] && after.row.status == to
    requires after.row.processType == s.row.processType
    requires EdgeAllowed(s.row.processType, s.row.status, to) && to != WeighInDone
    ensures Chained(after) && Bounded(after)
  {
    assert after.history[..|s.history|] == s.history;
    if !Terminal(s.row.status) {
      EdgesDescend(s.row.status, to);
    }
  }

  /** The edge an accepted forward step appends; none where the status stays. */
  lemma ForwardEdge(f: Forward, s: Dossier)
    requires Staged(s) && ApplyForward(f, s).Ok?
    ensures var after := ApplyForward(f, s).value;
      && after.row.processType == s.row.processType
      && after.row.status != WeighInDone
      && (after.row.status == s.row.status ==> after.history == s.history)
      && (after.row.status != s.row.status ==>
        && TransitionAllowed(s.row.status, after.row.status)
        && after.history == s.history + [Edge(Some(s.row.status), after.row.status)])
  {
    hide HasCurrent, CurrentAt, ActiveAt, Inserted, FinishedProcess, Annotated, VehicleRecord, VehicleVerdict, Measured,
         KnownInWeight, LaterTables, MaxRevision;
  }

  lemma ReopenEdge(req: CorrectionRequest, target: Status, s: Dossier)
    requires Reopen(req, target, s).Ok?
    ensures var after := Reopen(req, target, s).value;
      && EffectiveTarget(target) in ReopenTargets(s.row.processType) && EffectiveTarget(target) != WeighInDone
      && after.row.processType == s.row.processType && after.row.status == EffectiveTarget(target)
      && after.history == s.history + [Edge(Some(s.row.status), EffectiveTarget(target))]
  {
    hide ClearedTables, FraudAfter, GrossUnderTare, StartsAfterEnd;
  }

  lemma ApplyKeepsHistory(rt: Runtime, req: Request, s: Dossier)
    requires Lineages(s) && Staged(s) && Chained(s) && Bounded(s) && Apply(rt, req, s).Ok?
    ensures Chained(Apply(rt, req, s).value) && Bounded(Apply(rt, req, s).value)
  {
    hide Chained, Bounded, Reopen, CorrectRecords, Lineages, Staged, ReadForward, CommitForward, TransitionAllowed;
    var after := Apply(rt, req, s).value;
    match req
    case Move(f) =>
      ForwardEdge(f, s);
      if after.row.status == s.row.status {
        SameHistory(s, after);
      } else {
        AppendEdge(s, after, after.row.status);
      }
    case Correct(c) =>
      if c.action == ReopenWorkflow {
        ReopenEdge(c, c.reopenTarget.value, s);
        AppendEdge(s, after, EffectiveTarget(c.reopenTarget.value));
      } else {
        CorrectionShape(rt, c, s);
        CorrectionBumpsRevision(rt, c, s);
        DataCorrectionKeepsStatus(rt, c, s);
        SameHistory(s, after);
      }
  }

  lemma SameHistory(s: Dossier, after: Dossier)
    requires after.history == s.history && after.row.status == s.row.status
      && after.row.processType == s.row.processType
    ensures Chained(s) ==> Chained(after)
    ensures Bounded(s) ==> Bounded(after)
  {}

  /**
   * A reopening lands on its target, but for work in the warehouse, which starts again from the passed vehicle check.
   */
  lemma ReopenLands(req: CorrectionRequest, target: Status, s: Dossier)
    requires Reopen(req, target, s).Ok?
    ensures var after := Reopen(req, target, s).value;
      && after.row.status == (if target == WarehouseInProgress then QcVehiclePassed else target)
      && after.history == s.history + [Edge(Some(s.row.status), after.row.status)]
  {
    hide ClearedTables, FraudAfter, GrossUnderTare, StartsAfterEnd;
  }

  lemma DataCorrectionKeepsStatus(rt: Runtime, req: CorrectionRequest, s: Dossier)
    requires CorrectRecords(rt, req, s).Ok?
    ensures var after := CorrectRecords(rt, req, s).value;
      after.row.status == s.row.status && after.row.isVoided == s.row.isVoided
        && after.row.processType == s.row.processType
  {
    hide SortItems, SupersedeGroups, RowChanges, HasChanges, ChangesTaken;
  }

  /**
   * In every run the history is a connected chain of allowed edges from registration to the current status,
   * and with k reopenings it has at most 10 (k + 1) entries.
   */
  lemma {:induction false} RunChained(rt: Runtime, pt: ProcessType, info: map<Field, Json>, reqs: seq<Request>)
    ensures var s := Run(rt, NewDossier(pt, info), reqs);
      && Chained(s)
      && |s.history| <= 10 * (1 + Reopenings(s.history))
  {
    RunBounded(rt, pt, info, reqs);
  }

  lemma {:induction false} RunBounded(rt: Runtime, pt: ProcessType, info: map<Field, Json>, reqs: seq<Request>)
    ensures var s := Run(rt, NewDossier(pt, info), reqs); Chained(s) && Bounded(s)
  {
    if reqs == [] {
      assert NewDossier(pt, info).history[..0] == [];
    } else {
      var init := reqs[..|reqs| - 1];
      var before := Run(rt, NewDossier(pt, info), init);
      RunBounded(rt, pt, info, init);
      RunStaged(rt, pt, info, init);
      if Apply(rt, reqs[|reqs| - 1], before).Ok? {
        ApplyKeepsHistory(rt, reqs[|reqs| - 1], before);
      }
    }
  }
}
