/** What holds after every interleaving of any number of calls on a transaction. */
module Interleavings {
  import opened Prelude
  import opened Workflow
  import opened Records
  import opened Corrections
  import opened Protocol
  import Audit
  import Fraud
  import Mirrors
  import Stages
  import StatusHistory
  import Timeline
  import Unloading
  import Weights

  ghost predicate Sound(rt: Runtime, s: Dossier) {
    && Stages.Lineages(s)
    && Stages.Staged(s)
    && Weights.NetConsistent(s.row)
    && Timeline.Timely(s.row)
    && StatusHistory.Chained(s)
    && |s.history| <= 10 * (1 + StatusHistory.Reopenings(s.history))
    && Fraud.Assessed(s)
    && Audit.Audited(rt, s)
    && Audit.ItemsTrue(s.tables, s.items)
    && (s.row.isVoided ==> s.row.status == Cancelled)
  }

  lemma RunSound(rt: Runtime, pt: ProcessType, info: map<Field, Json>, reqs: seq<Request>)
    ensures Sound(rt, Run(rt, NewDossier(pt, info), reqs))
  {
    hide Stages.Lineages, Stages.Staged, Weights.NetConsistent, StatusHistory.Chained, Fraud.Assessed, Audit.Audited,
      Audit.ItemsTrue,
      Timeline.Timely, Run;
    Stages.RunStaged(rt, pt, info, reqs);
    Weights.RunNetConsistent(rt, pt, info, reqs);
    StatusHistory.RunChained(rt, pt, info, reqs);
    Timeline.RunTimely(rt, pt, info, reqs);
    Fraud.RunAssessed(rt, pt, info, reqs);
    Fraud.RunVoidedIsCancelled(rt, pt, info, reqs);
    Audit.RunAudited(rt, pt, info, reqs);
    Audit.RunItemsTrue(rt, pt, info, reqs);
  }

  /**
   * Calls whose halves interleave in any way keep every invariant, and the revision counts exactly the commits. The
   * cached weights follow their records if each committed data correction spares them on the state it was committed on,
   * and so does each column the row shows of the warehouse process.
   */
  lemma InterleavingSound(rt: Runtime, pt: ProcessType, info: map<Field, Json>, events: seq<Event>)
    ensures var sys := Execute(rt, NewDossier(pt, info), events);
      && Sound(rt, sys.db)
      && sys.db.row.revision == INITIAL_REVISION + |sys.log|
      && ((forall i :: 0 <= i < |sys.log| ==> Weights.SparesCache(rt, sys.log[i].req, sys.log[i].base)) ==>
        Weights.Cached(sys.db))
      && (forall k :: Unloading.OfWarehouse(k) && LogSpares(rt, sys.log, k) ==> Mirrors.Agrees(sys.db, k))
  {
    hide Sound, Weights.Cached, Weights.SparesCache, Unloading.Spares, Mirrors.Agrees, Execute, Run;
    var sys := Execute(rt, NewDossier(pt, info), events);
    Serializable(rt, NewDossier(pt, info), events);
    var reqs := Requests(sys.log);
    RunSound(rt, pt, info, reqs);
    if forall i :: 0 <= i < |sys.log| ==> Weights.SparesCache(rt, sys.log[i].req, sys.log[i].base) {
      forall i | 0 <= i < |reqs| ensures Weights.SparesCache(rt, reqs[i], Run(rt, NewDossier(pt, info), reqs[..i])) {
        assert sys.log[i].base == Run(rt, NewDossier(pt, info), reqs[..i]);
      }
      Weights.RunCached(rt, pt, info, reqs);
    }
    forall k | Unloading.OfWarehouse(k) && LogSpares(rt, sys.log, k) ensures Mirrors.Agrees(sys.db, k) {
      forall i | 0 <= i < |reqs| ensures Unloading.Spares(rt, reqs[i], Run(rt, NewDossier(pt, info), reqs[..i]), k) {
        assert Unloading.Spares(rt, sys.log[i].req, sys.log[i].base, k);
        assert sys.log[i].base == Run(rt, NewDossier(pt, info), reqs[..i]);
      }
      Unloading.RunAgrees(rt, pt, info, reqs, k);
    }
  }

  predicate LogSpares(rt: Runtime, log: seq<Entry>, k: Mirrors.Mirror) {
    forall i :: 0 <= i < |log| ==> Unloading.Spares(rt, log[i].req, log[i].base, k)
  }
}
