/**
 * Any number of calls against one transaction, each a read followed at some later time by a commit.
 * Every interleaving amounts to running the committed calls one after the other.
 */
module Protocol {
  import opened Prelude
  import opened Workflow
  import opened Records
  import opened Steps
  import opened Corrections

  datatype Request = Move(step: Forward) | Correct(correction: CorrectionRequest)

  function Refusal(req: Request, snap: Dossier): Option<Reason> {
    match req
    case Move(f) => ReadForward(f, snap)
    case Correct(c) => ReadCorrection(c)
  }

  /** The commit half on the rows db, for a call whose read half saw snap. A correction reads again inside. */
  function Settle(rt: Runtime, req: Request, snap: Dossier, db: Dossier): Outcome {
    var refusal := Refusal(req, snap);
    if refusal.Some? then Err(refusal.value)
    else match req
      case Move(f) => CommitForward(f, snap, db)
      case Correct(c) => CommitCorrection(rt, c, db)
  }

  function Apply(rt: Runtime, req: Request, s: Dossier): Outcome {
    Settle(rt, req, s, s)
  }

  function After(rt: Runtime, s: Dossier, req: Request): Dossier {
    match Apply(rt, req, s)
    case Ok(next) => next
    case Err(_) => s
  }

  /** Calls one after the other; a refused call changes nothing. */
  function Run(rt: Runtime, s: Dossier, reqs: seq<Request>): Dossier {
    if reqs == [] then s else After(rt, Run(rt, s, reqs[..|reqs| - 1]), reqs[|reqs| - 1])
  }

  // ----- Interleavings -----

  datatype Pending = Pending(req: Request, snap: Dossier)

  datatype Entry = Entry(req: Request, base: Dossier)

  datatype System = System(db: Dossier, pending: map<nat, Pending>, log: seq<Entry>)

  datatype Event = ReadHalf(call: nat, req: Request) | CommitHalf(call: nat)

  /** A voiding client quotes a revision it has already been shown. */
  predicate Observed(req: Request, s: Dossier) {
    req.Move? && req.step.Void? ==> req.step.expectedRevision <= s.row.revision
  }

  function Step(rt: Runtime, sys: System, e: Event): System {
    match e
    case ReadHalf(call, req) =>
      if call in sys.pending || Refusal(req, sys.db).Some? || !Observed(req, sys.db) then sys
      else sys.(pending := sys.pending[call := Pending(req, sys.db)])
    case CommitHalf(call) =>
      if call !in sys.pending then sys
      else
        var p := sys.pending[call];
        match Settle(rt, p.req, p.snap, sys.db)
        case Ok(next) => System(next, sys.pending - {call}, sys.log + [Entry(p.req, sys.db)])
        case Err(_) => sys.(pending := sys.pending - {call})
  }

  function Execute(rt: Runtime, start: Dossier, events: seq<Event>): System {
    if events == [] then System(start, map[], [])
    else Step(rt, Execute(rt, start, events[..|events| - 1]), events[|events| - 1])
  }

  function Requests(log: seq<Entry>): seq<Request> {
    seq(|log|, i requires 0 <= i < |log| => log[i].req)
  }

  // ----- One commit -----

  lemma ForwardBumpsRevision(f: Forward, snap: Dossier, db: Dossier)
    requires ReadForward(f, snap).None? && CommitForward(f, snap, db).Ok?
    ensures CommitForward(f, snap, db).value.row.revision == db.row.revision + 1
    ensures CommitForward(f, snap, db).value.row.processType == db.row.processType
  {}

  lemma CorrectionBumpsRevision(rt: Runtime, c: CorrectionRequest, db: Dossier)
    requires ReadCorrection(c).None? && CommitCorrection(rt, c, db).Ok?
    ensures CommitCorrection(rt, c, db).value.row.revision == db.row.revision + 1
    ensures CommitCorrection(rt, c, db).value.row.processType == db.row.processType
  {
    hide SortItems, RowChanges, HasChanges, ChangesTaken, SupersedeGroups, FraudAfter, ClearedTables;
  }

  lemma CommitBumpsRevision(rt: Runtime, req: Request, snap: Dossier, db: Dossier)
    requires Settle(rt, req, snap, db).Ok?
    ensures Settle(rt, req, snap, db).value.row.revision == db.row.revision + 1
    ensures Settle(rt, req, snap, db).value.row.processType == db.row.processType
  {
    match req
    case Move(f) => ForwardBumpsRevision(f, snap, db);
    case Correct(c) => CorrectionBumpsRevision(rt, c, db);
  }

  /** A snapshot is either behind the rows or equal to them. */
  ghost predicate Behind(snap: Dossier, db: Dossier) {
    snap.row.revision <= db.row.revision && (snap.row.revision == db.row.revision ==> snap == db)
  }

  /** No lost update: what commits was computed from the rows it is committed on. */
  lemma CommitSeesItsSnapshot(rt: Runtime, req: Request, snap: Dossier, db: Dossier)
    requires Behind(snap, db) && Observed(req, snap)
    requires Settle(rt, req, snap, db).Ok?
    ensures req.Move? ==> snap == db
    ensures Settle(rt, req, snap, db) == Apply(rt, req, db)
  {
    if req.Move? {
      assert db.row.revision <= snap.row.revision;
    }
  }

  /** Without that proviso, a void commits on the state it read exactly when it quotes the revision it read. */
  lemma VoidSeesItsSnapshot(rt: Runtime, expected: int, why: string, now: int, snap: Dossier, db: Dossier)
    requires Behind(snap, db)
    requires Settle(rt, Move(Void(expected, why, now)), snap, db).Ok?
    ensures snap == db <==> expected == snap.row.revision
  {}

  // ----- Every interleaving -----

  lemma RunSnoc(rt: Runtime, s: Dossier, reqs: seq<Request>, req: Request)
    ensures Run(rt, s, reqs + [req]) == After(rt, Run(rt, s, reqs), req)
  {
    assert (reqs + [req])[..|reqs|] == reqs;
  }

  ghost predicate PendingCoherent(sys: System) {
    forall call :: call in sys.pending ==>
      Behind(sys.pending[call].snap, sys.db) && Observed(sys.pending[call].req, sys.pending[call].snap)
  }

  ghost predicate LogCoherent(rt: Runtime, start: Dossier, log: seq<Entry>) {
    forall i :: 0 <= i < |log| ==>
      && log[i].base == Run(rt, start, Requests(log)[..i])
      && log[i].base.row.revision == start.row.revision + i
      && Apply(rt, log[i].req, log[i].base).Ok?
  }

  ghost predicate Coherent(rt: Runtime, start: Dossier, sys: System) {
    && sys.db == Run(rt, start, Requests(sys.log))
    && sys.db.row.revision == start.row.revision + |sys.log|
    && PendingCoherent(sys)
    && LogCoherent(rt, start, sys.log)
  }

  lemma LogGrows(rt: Runtime, start: Dossier, log: seq<Entry>, e: Entry)
    requires LogCoherent(rt, start, log)
    requires e.base == Run(rt, start, Requests(log)) && e.base.row.revision == start.row.revision + |log|
    requires Apply(rt, e.req, e.base).Ok?
    ensures LogCoherent(rt, start, log + [e])
    ensures Run(rt, start, Requests(log + [e])) == After(rt, e.base, e.req)
  {
    hide Run, After, Apply;
    var grown := log + [e];
    assert Requests(grown) == Requests(log) + [e.req];
    RunSnoc(rt, start, Requests(log), e.req);
    forall i | 0 <= i < |grown|
      ensures grown[i].base == Run(rt, start, Requests(grown)[..i])
    {
      assert Requests(grown)[..i] == if i < |log| then Requests(log)[..i] else Requests(log);
    }
  }

  lemma CommitCoherent(rt: Runtime, start: Dossier, sys: System, call: nat)
    requires Coherent(rt, start, sys) && call in sys.pending
    requires Settle(rt, sys.pending[call].req, sys.pending[call].snap, sys.db).Ok?
    ensures Coherent(rt, start, Step(rt, sys, CommitHalf(call)))
  {
    hide Settle, Run, LogCoherent;
    var p := sys.pending[call];
    CommitSeesItsSnapshot(rt, p.req, p.snap, sys.db);
    CommitBumpsRevision(rt, p.req, p.snap, sys.db);
    LogGrows(rt, start, sys.log, Entry(p.req, sys.db));
  }

  lemma StepCoherent(rt: Runtime, start: Dossier, sys: System, e: Event)
    requires Coherent(rt, start, sys)
    ensures Coherent(rt, start, Step(rt, sys, e))
  {
    hide Settle, Run, LogCoherent;
    if e.CommitHalf? && e.call in sys.pending
      && Settle(rt, sys.pending[e.call].req, sys.pending[e.call].snap, sys.db).Ok? {
      CommitCoherent(rt, start, sys, e.call);
    }
  }

  /**
   * Serializability: in every interleaving the rows are those of the committed calls run in commit order,
   * each accepted on the state it found; base revisions are consecutive, so no two commits share one.
   */
  lemma {:induction false} Serializable(rt: Runtime, start: Dossier, events: seq<Event>)
    ensures Coherent(rt, start, Execute(rt, start, events))
  {
    if events != [] {
      Serializable(rt, start, events[..|events| - 1]);
      StepCoherent(rt, start, Execute(rt, start, events[..|events| - 1]), events[|events| - 1]);
    }
  }

  lemma StepMovesForward(rt: Runtime, sys: System, e: Event)
    ensures Behind(sys.db, Step(rt, sys, e).db)
  {
    if e.CommitHalf? && e.call in sys.pending {
      var p := sys.pending[e.call];
      if Settle(rt, p.req, p.snap, sys.db).Ok? {
        CommitBumpsRevision(rt, p.req, p.snap, sys.db);
      }
    }
  }

  /** ABA: at two moments of a run with the same revision, the row and all its child tables are the same. */
  lemma {:induction false} SameRevisionSameRows(rt: Runtime, start: Dossier, events: seq<Event>, i: nat, j: nat)
    requires i <= j <= |events|
    ensures Behind(Execute(rt, start, events[..i]).db, Execute(rt, start, events[..j]).db)
    decreases j - i
  {
    hide Step, Settle;
    if i < j {
      SameRevisionSameRows(rt, start, events, i, j - 1);
      assert events[..j][..j - 1] == events[..j - 1];
      StepMovesForward(rt, Execute(rt, start, events[..j - 1]), events[j - 1]);
    }
  }

  /** Two calls that read the same state cannot both commit. */
  lemma OneCommitPerRevision(rt: Runtime, start: Dossier, events: seq<Event>, i: nat, j: nat)
    requires i < j < |Execute(rt, start, events).log|
    ensures Execute(rt, start, events).log[i].base.row.revision != Execute(rt, start, events).log[j].base.row.revision
  {
    Serializable(rt, start, events);
  }

  lemma WeighedIn(rt: Runtime)
    ensures var start := NewDossier(GBB, map[]);
      var weighed := After(rt, start, Move(WeighIn(10.0, Null, Null, 0)));
      && weighed.row.status == QcVehiclePending && weighed.row.revision == 2 && !weighed.row.isVoided
      && weighed.history == [Edge(None, Registered), Edge(Some(Registered), QcVehiclePending)]
  {}

  lemma VoidRecords(rt: Runtime, why: string, now: int, snap: Dossier, db: Dossier)
    requires ReadVoid(snap).None? && snap.row.status != Cancelled && db.row.status != Completed && !db.row.isVoided
    ensures var voided := Settle(rt, Move(Void(db.row.revision, why, now)), snap, db);
      voided.Ok? && voided.value.history == db.history + [Edge(Some(snap.row.status), Cancelled)]
  {}

  /** An unobserved revision breaks it: a void that quotes a revision still to come records a status left behind. */
  lemma UnobservedVoidLosesTheStatus(rt: Runtime)
    ensures var start := NewDossier(GBB, map[]);
      var void := Move(Void(2, "", 0));
      var weighed := After(rt, start, Move(WeighIn(10.0, Null, Null, 0)));
      var voided := Settle(rt, void, start, weighed);
      && weighed.row.status == QcVehiclePending
      && voided.Ok?
      && voided.value.history ==
        [Edge(None, Registered), Edge(Some(Registered), QcVehiclePending), Edge(Some(Registered), Cancelled)]
      && voided != Apply(rt, void, weighed)
  {
    hide After, Settle;
    var start := NewDossier(GBB, map[]);
    var weighed := After(rt, start, Move(WeighIn(10.0, Null, Null, 0)));
    WeighedIn(rt);
    VoidRecords(rt, "", 0, start, weighed);
    VoidRecords(rt, "", 0, weighed, weighed);
    assert Settle(rt, Move(Void(2, "", 0)), start, weighed).value.history[2]
        != Settle(rt, Move(Void(2, "", 0)), weighed, weighed).value.history[2];
  }
}
