/**
 * Restoring the database and the uploaded files from a backup, with a failure possible at every step.
 * The restore program is atomic: it replaces the whole database or leaves it alone.
 */
module Restore {
  import opened Prelude

  /** A location: the segments of an absolute, normalized path. */
  type Path = seq<string>

  type Files = map<Path, string>

  datatype Dump = Dump(content: string)

  /** An archived file: its path as written, split at the slashes, and what the archive may omit. */
  datatype Entry = Entry(absolute: bool, segments: seq<string>, content: Option<string>, checksum: Option<string>)

  // ----- Paths -----

  function Descend(at: Path, segment: string): Path {
    if segment == "" || segment == "." then at
    else if segment == ".." then (if at == [] then [] else at[..|at| - 1])
    else at + [segment]
  }

  function Resolve(at: Path, segments: seq<string>): Path {
    if segments == [] then at else Descend(Resolve(at, segments[..|segments| - 1]), segments[|segments| - 1])
  }

  /** Where staging writes an entry: an absolute path replaces the staging directory. */
  function StagingTarget(root: Path, e: Entry): Path {
    Resolve(if e.absolute then [] else root, e.segments)
  }

  /** The relative path from the staging directory starts with two dots. */
  predicate PathRefused(root: Path, target: Path) {
    !(root <= target) || (|target| > |root| && ".." <= target[|root|])
  }

  predicate ChecksumAgrees(digest: string -> string, e: Entry)
    requires e.content.Some?
  {
    e.checksum.Some? && e.checksum.value != "" ==> ToUpper(digest(e.content.value)) == ToUpper(e.checksum.value)
  }

  /** An entry without a path or without content is passed over. */
  predicate IsStaged(e: Entry) {
    e.segments != [] && e.content.Some? && e.content.value != ""
  }

  /** The staging directory itself cannot be written as a file. */
  predicate Passes(digest: string -> string, root: Path, e: Entry) {
    IsStaged(e) ==>
      !PathRefused(root, StagingTarget(root, e)) && StagingTarget(root, e) != root && ChecksumAgrees(digest, e)
  }

  predicate SameLetter(a: char, b: char) {
    || a == b
    || ('a' <= a <= 'z' && b as int == a as int - 32)
    || ('a' <= b <= 'z' && a as int == b as int - 32)
  }

  /**
   * Content archived with a checksum passes exactly if it may be written where its path leads and its digest is that
   * checksum, upper or lower case.
   */
  lemma PassesChecksumIff(digest: string -> string, root: Path, e: Entry)
    requires e.segments != [] && e.content.Some? && e.content.value != "" && e.checksum.Some? && e.checksum.value != ""
    ensures var d := digest(e.content.value);
      Passes(digest, root, e) <==>
        && !PathRefused(root, StagingTarget(root, e)) && StagingTarget(root, e) != root
        && |d| == |e.checksum.value| && forall i :: 0 <= i < |d| ==> SameLetter(d[i], e.checksum.value[i])
  {
    hide StagingTarget, PathRefused;
    SameUpper(digest(e.content.value), e.checksum.value);
  }

  lemma SameUpper(a: string, b: string)
    ensures ToUpper(a) == ToUpper(b) <==> |a| == |b| && forall i :: 0 <= i < |a| ==> SameLetter(a[i], b[i])
  {
    if ToUpper(a) == ToUpper(b) {
      forall i | 0 <= i < |a| ensures SameLetter(a[i], b[i]) {
        assert ToUpper(a)[i] == ToUpper(b)[i];
      }
    }
  }

  lemma {:induction false} ResolveJoin(at: Path, a: seq<string>, b: seq<string>)
    ensures Resolve(at, a + b) == Resolve(Resolve(at, a), b)
  {
    hide Descend;
    if b == [] {
      assert a + b == a;
    } else {
      ResolveJoin(at, a, b[..|b| - 1]);
      assert (a + b)[..|a + b| - 1] == a + b[..|b| - 1];
    }
  }

  /** A path leads where its normal form leads: empty names and single dots fall away, two dots undo the name before. */
  lemma NormalForm(at: Path, a: seq<string>, name: string, b: seq<string>)
    ensures Resolve(at, a + [""] + b) == Resolve(at, a + ["."] + b) == Resolve(at, a + b)
    ensures name != "" && name != "." && name != ".." ==> Resolve(at, a + [name, ".."] + b) == Resolve(at, a + b)
  {
    ResolveJoin(at, a, b);
    ResolveJoin(at, a + [""], b);
    ResolveJoin(at, a + ["."], b);
    ResolveJoin(at, a + [name, ".."], b);
    ResolveJoin(at, a, [""]);
    ResolveJoin(at, a, ["."]);
    ResolveJoin(at, a, [name, ".."]);
    assert [""][..0] == [] && ["."][..0] == [] && [name, ".."][..1] == [name] && [name][..0] == [];
    hide Resolve;
  }

  /** An absolute path is refused unless it leads below the staging directory by itself. */
  lemma AbsolutePassed(digest: string -> string, root: Path, e: Entry)
    requires e.absolute && e.segments != [] && e.content.Some? && e.content.value != "" && Passes(digest, root, e)
    ensures root < Resolve([], e.segments)
  {
    hide Resolve;
  }

  /** An entry without a path or content is passed over, wherever it leads. */
  lemma EmptyPassedOver(digest: string -> string, root: Path, entries: seq<Entry>, e: Entry)
    requires e.segments == [] || e.content.None? || e.content.value == ""
    ensures Passes(digest, root, e) && Staged(root, entries + [e]) == Staged(root, entries)
  {
    assert (entries + [e])[..|entries|] == entries;
  }

  /** What passes lands strictly below the staging directory, not through a name that starts with two dots. */
  lemma PassedTarget(digest: string -> string, root: Path, e: Entry)
    requires Passes(digest, root, e) && e.segments != [] && e.content.Some? && e.content.value != ""
    ensures var target := StagingTarget(root, e);
      |root| < |target| && target[..|root|] == root && !(".." <= target[|root|])
  {
    hide StagingTarget;
  }

  // ----- The files -----

  function Outside(files: Files, root: Path): Files {
    map p | p in files && !(root <= p) :: files[p]
  }

  function Staged(root: Path, entries: seq<Entry>): Files {
    if entries == [] then map[]
    else
      var e, before := entries[|entries| - 1], Staged(root, entries[..|entries| - 1]);
      if IsStaged(e) then before[StagingTarget(root, e) := e.content.value] else before
  }

  function Moved(files: Files, from: Path, to: Path): Files {
    if from in files then (files - {from})[to := files[from]] else files
  }

  /** Renaming every archived path from the staging directory to the live one, where there is something to rename. */
  function Promoted(root: Path, live: Path, files: Files, entries: seq<Entry>): Files {
    if entries == [] then files
    else
      var e, before := entries[|entries| - 1], Promoted(root, live, files, entries[..|entries| - 1]);
      if e.segments == [] then before else Moved(before, Resolve(root, e.segments), Resolve(live, e.segments))
  }

  function Loaded(files: Files, root: Path, entries: seq<Entry>): Files {
    Outside(files, root) + Staged(root, entries)
  }

  /** What the promotion of the first k entries leaves once the staging directory is gone. */
  function Live(files: Files, root: Path, live: Path, entries: seq<Entry>, k: nat): Files
    requires k <= |entries|
  {
    Outside(Promoted(root, live, Loaded(files, root, entries), entries[..k]), root)
  }

  // ----- Failures -----

  /** The snapshot made before restoring; its dump may be missing when it is needed. */
  datatype Snapshot = SnapshotThrows | Snapshot(verified: bool, dump: Option<Dump>)

  /** Which steps fail; an index says at which entry. */
  datatype Faults = Faults(
    staging: Option<nat>,
    snapshot: Snapshot,
    restore: bool,
    promotion: Option<nat>,
    clearing: bool,
    logging: bool,
    cleanup: bool,
    rollback: bool)

  datatype Exit = Exit(done: bool, committed: bool)

  /** How many entries are promoted before the promotion ends or fails. */
  function Reached(faults: Faults, entries: seq<Entry>): nat {
    if faults.promotion.Some? && faults.promotion.value < |entries| then faults.promotion.value else |entries|
  }

  predicate PromotionEnds(faults: Faults, entries: seq<Entry>) {
    Reached(faults, entries) == |entries| && !faults.clearing
  }

  lemma AcceptedInside(root: Path, target: Path)
    requires !PathRefused(root, target)
    ensures root <= target
  {}

  lemma NothingStaged(files: Files, root: Path)
    ensures Loaded(files, root, []) == Outside(files, root)
  {}

  lemma WriteInside(files: Files, root: Path, target: Path, content: string)
    requires root <= target
    ensures Outside(files[target := content], root) == Outside(files, root)
  {}

  lemma LoadedSnoc(files: Files, root: Path, entries: seq<Entry>, e: Entry)
    ensures Loaded(files, root, entries + [e]) ==
      if IsStaged(e) then Loaded(files, root, entries)[StagingTarget(root, e) := e.content.value]
      else Loaded(files, root, entries)
  {
    hide Outside, StagingTarget;
    assert (entries + [e])[..|entries|] == entries;
  }

  class Server {
    var files: Files
    var database: Dump
    const uploads: Path

    constructor (files: Files, database: Dump, uploads: Path)
      ensures this.files == files && this.database == database && this.uploads == uploads
    {
      this.files, this.database, this.uploads := files, database, uploads;
    }

    /** Writes the archived contents below root, checking each path before and each checksum after. */
    method Stage(digest: string -> string, root: Path, entries: seq<Entry>, fault: Option<nat>) returns (ok: bool)
      modifies this`files
      ensures Outside(files, root) == Outside(old(files), root)
      ensures ok ==> files == Loaded(old(files), root, entries)
      ensures ok ==> forall i :: 0 <= i < |entries| ==> Passes(digest, root, entries[i])
    {
      hide Outside, StagingTarget, Loaded, PathRefused, ChecksumAgrees;
      Clear(root);
      assert files == Loaded(old(files), root, []) by {
        NothingStaged(old(files), root);
      }
      for i := 0 to |entries|
        invariant files == Loaded(old(files), root, entries[..i])
        invariant Outside(files, root) == Outside(old(files), root)
        invariant forall k :: 0 <= k < i ==> Passes(digest, root, entries[k])
      {
        var e := entries[i];
        assert entries[..i + 1] == entries[..i] + [e];
        LoadedSnoc(old(files), root, entries[..i], e);
        if IsStaged(e) {
          var target := StagingTarget(root, e);
          if fault == Some(i) || PathRefused(root, target) || target == root {
            return false;
          }
          AcceptedInside(root, target);
          WriteInside(files, root, target, e.content.value);
          files := files[target := e.content.value];
          if !ChecksumAgrees(digest, e) {
            return false;
          }
        }
      }
      assert entries[..|entries|] == entries;
      return true;
    }

    method Promote(root: Path, entries: seq<Entry>, count: nat)
      requires count <= |entries|
      modifies this`files
      ensures files == Promoted(root, uploads, old(files), entries[..count])
    {
      for i := 0 to count
        invariant files == Promoted(root, uploads, old(files), entries[..i])
      {
        var e := entries[i];
        assert entries[..i + 1][..i] == entries[..i];
        if e.segments != [] {
          var from, to := Resolve(root, e.segments), Resolve(uploads, e.segments);
          if from in files {
            files := (files - {from})[to := files[from]];
          }
        }
      }
    }

    method RestoreDatabase(
      digest: string -> string, admitted: bool, target: Dump, archive: Option<seq<Entry>>, name: string, faults: Faults)
      returns (exit: Exit)
      modifies this
      // Nothing live changes before the commit, and nothing commits before every staged entry has passed.
      ensures !exit.committed ==> database == old(database) && !exit.done
      ensures !exit.committed ==> Outside(files, uploads + [name]) == Outside(old(files), uploads + [name])
      ensures exit.committed && archive.Some? ==>
        forall i :: 0 <= i < |archive.value| ==> Passes(digest, uploads + [name], archive.value[i])
      // Success.
      ensures exit.done ==> database == target
      ensures exit.done && archive.Some? ==>
        files == Live(old(files), uploads + [name], uploads, archive.value, |archive.value|)
      ensures archive.None? ==> files == old(files)
      // Failure after the commit: the rollback runs unless clearing the staging directory fails first.
      ensures exit.committed && !exit.done ==> faults.snapshot.Snapshot?
      ensures exit.committed && !exit.done ==>
        database ==
          if faults.snapshot.dump.Some? && !faults.rollback
             && !(archive.Some? && !PromotionEnds(faults, archive.value) && faults.cleanup)
          then faults.snapshot.dump.value else target
      ensures exit.committed && !exit.done && archive.Some? ==>
        Outside(files, uploads + [name]) ==
          Live(old(files), uploads + [name], uploads, archive.value, Reached(faults, archive.value))
    {
      hide Passes, Staged, Promoted, Outside;
      var root := uploads + [name];
      if !admitted {
        return Exit(false, false);
      }
      if archive.Some? {
        var ok := Stage(digest, root, archive.value, faults.staging);
        if !ok {
          Clear(root);
          return Exit(false, false);
        }
      }
      if faults.snapshot.SnapshotThrows? {
        return Exit(false, false);
      }
      if !faults.snapshot.verified {
        if archive.Some? {
          Clear(root);
        }
        return Exit(false, false);
      }
      var dbCommitted, staging := false, archive.Some?;
      var failed := faults.restore;
      if !failed {
        database := target;
        dbCommitted := true;
        if archive.Some? {
          Promote(root, archive.value, Reached(faults, archive.value));
          failed := !PromotionEnds(faults, archive.value);
          if !failed {
            assert archive.value[..|archive.value|] == archive.value;
            Clear(root);
            staging := false;
          }
        }
        if !failed && !faults.logging {
          return Exit(true, true);
        }
      }
      if staging {
        if faults.cleanup {
          return Exit(false, dbCommitted);
        }
        Clear(root);
      }
      if dbCommitted && faults.snapshot.dump.Some? && !faults.rollback {
        database := faults.snapshot.dump.value;
      }
      return Exit(false, dbCommitted);
    }

    method Clear(root: Path)
      modifies this`files
      ensures files == Outside(old(files), root) && Outside(files, root) == Outside(old(files), root)
    {
      files := Outside(files, root);
    }

    /**
     * The portable bundle restores the database before it looks at the attachments, so a bad entry is found after
     * the commit; and its error handler rolls back whenever a snapshot was returned, committed or not, verified or not.
     */
    method RestoreFromPortableBundle(
      digest: string -> string, admitted: bool, dumpIntact: bool, target: Dump, attachments: Option<seq<Entry>>,
      root: Path,
      faults: Faults)
      returns (exit: Exit)
      modifies this
      ensures Outside(files, root) != Outside(old(files), root) ==>
        && exit.committed && attachments.Some?
        && forall i :: 0 <= i < |attachments.value| ==> Passes(digest, root, attachments.value[i])
      ensures exit.done ==> exit.committed && database == target
      ensures exit.done && attachments.Some? ==>
        files == Live(old(files), root, uploads, attachments.value, |attachments.value|)
      ensures exit.done && attachments.None? ==> files == Outside(old(files), root)
      // A failed promotion leaves the entries it reached promoted; every other failure leaves the live files alone.
      ensures !exit.done && Outside(files, root) != Outside(old(files), root) ==>
        attachments.Some? && Outside(files, root) ==
          Live(old(files), root, uploads, attachments.value, Reached(faults, attachments.value))
      ensures !exit.done ==>
        database ==
          if admitted && dumpIntact && faults.snapshot.Snapshot? && faults.snapshot.dump.Some? && !faults.rollback
          then faults.snapshot.dump.value
          else if exit.committed then target else old(database)
    {
      hide Passes, Staged, Promoted, Outside;
      if !admitted {
        return Exit(false, false);
      }
      Clear(root);
      if !dumpIntact || faults.snapshot.SnapshotThrows? {
        return Exit(false, false);
      }
      var dbCommitted, failed := false, !faults.snapshot.verified || faults.restore;
      if !failed {
        database := target;
        dbCommitted := true;
        if attachments.Some? {
          var ok := Stage(digest, root, attachments.value, faults.staging);
          failed := !ok;
          if ok {
            Promote(root, attachments.value, Reached(faults, attachments.value));
            failed := Reached(faults, attachments.value) < |attachments.value|;
            assert !failed ==> attachments.value[..|attachments.value|] == attachments.value;
          }
        }
        failed := failed || faults.logging;
      }
      if failed && faults.snapshot.dump.Some? && !faults.rollback {
        database := faults.snapshot.dump.value;
      }
      Clear(root);
      return Exit(!failed, dbCommitted);
    }
  }

  // ----- Where promotion writes -----

  /** Promotion resolves a path against both directories, whatever staging made of it. */
  function Source(root: Path, e: Entry): Path {
    Resolve(root, e.segments)
  }

  /** Below the uploads and not in the staging directory, which may lie among them. */
  predicate InUploads(root: Path, live: Path, p: Path) {
    live <= p && !(root <= p)
  }

  /** A move that happens takes a staged file to a place below the uploads. */
  ghost predicate StaysAt(root: Path, live: Path, now: Files, e: Entry) {
    e.segments != [] && Source(root, e) in now ==>
      root <= Source(root, e) && InUploads(root, live, Resolve(live, e.segments))
  }

  /** So does every move of the promotion. */
  ghost predicate StaysBelow(root: Path, live: Path, files: Files, entries: seq<Entry>) {
    forall k :: 0 <= k < |entries| ==>
      StaysAt(root, live, Promoted(root, live, Loaded(files, root, entries), entries[..k]), entries[k])
  }

  predicate Named(root: Path, entries: seq<Entry>, place: Path) {
    exists i :: 0 <= i < |entries| && entries[i].segments != [] && Source(root, entries[i]) == place
  }

  /** Entry k is the first to name a staged place, so it is the one that is promoted. */
  predicate Promotes(root: Path, entries: seq<Entry>, k: nat)
    requires k < |entries|
  {
    && entries[k].segments != []
    && Source(root, entries[k]) in Staged(root, entries)
    && !Named(root, entries[..k], Source(root, entries[k]))
  }

  /** Every named path stays in the staging directory, and every promoted one leads below the uploads. */
  predicate Contained(root: Path, live: Path, entries: seq<Entry>) {
    forall k :: 0 <= k < |entries| ==> ContainedAt(root, live, entries, k)
  }

  predicate ContainedAt(root: Path, live: Path, entries: seq<Entry>, k: nat)
    requires k < |entries|
  {
    && (entries[k].segments != [] ==> root <= Source(root, entries[k]))
    && (Promotes(root, entries, k) ==> InUploads(root, live, Resolve(live, entries[k].segments)))
  }

  function At(files: Files, p: Path): Option<string> {
    if p in files then Some(files[p]) else None
  }

  /** What place p holds after k entries: the staged file of the last entry promoted to it, else what it held before. */
  function LiveContent(root: Path, live: Path, files: Files, entries: seq<Entry>, k: nat, p: Path): Option<string>
    requires k <= |entries|
  {
    if k == 0 then At(files, p)
    else if Promotes(root, entries, k - 1) && Resolve(live, entries[k - 1].segments) == p
    then Some(Staged(root, entries)[Source(root, entries[k - 1])])
    else LiveContent(root, live, files, entries, k - 1, p)
  }

  /** Part way through: places named so far are gone from the staging directory, the others are still there. */
  ghost predicate HalfPromoted(root: Path, live: Path, files: Files, entries: seq<Entry>, k: nat, now: Files)
    requires k <= |entries|
  {
    && (forall p :: root <= p ==>
      At(now, p) == if Named(root, entries[..k], p) then None else At(Staged(root, entries), p))
    && (forall p :: !(root <= p) ==> At(now, p) == LiveContent(root, live, files, entries, k, p))
  }

  lemma NamedSnoc(root: Path, entries: seq<Entry>, k: nat, place: Path)
    requires k < |entries|
    ensures Named(root, entries[..k + 1], place) <==>
      Named(root, entries[..k], place) || (entries[k].segments != [] && Source(root, entries[k]) == place)
  {
    hide Source;
    var more := entries[..k + 1];
    if Named(root, entries[..k], place) {
      var i :| 0 <= i < k && entries[..k][i].segments != [] && Source(root, entries[..k][i]) == place;
      assert more[i].segments != [] && Source(root, more[i]) == place;
    }
    if entries[k].segments != [] && Source(root, entries[k]) == place {
      assert more[k].segments != [] && Source(root, more[k]) == place;
    }
    if Named(root, more, place) {
      var i :| 0 <= i < k + 1 && more[i].segments != [] && Source(root, more[i]) == place;
      assert i < k ==> entries[..k][i].segments != [] && Source(root, entries[..k][i]) == place;
    }
  }

  lemma PromotedSnoc(root: Path, live: Path, files: Files, entries: seq<Entry>, k: nat)
    requires k < |entries|
    ensures var before := Promoted(root, live, files, entries[..k]);
      Promoted(root, live, files, entries[..k + 1]) ==
        if entries[k].segments == [] then before
        else Moved(before, Source(root, entries[k]), Resolve(live, entries[k].segments))
  {
    assert entries[..k + 1][..k] == entries[..k];
  }

  lemma PromoteOne(root: Path, live: Path, files: Files, entries: seq<Entry>, k: nat, now: Files)
    requires k < |entries| && ContainedAt(root, live, entries, k) && entries[k].segments != []
    requires HalfPromoted(root, live, files, entries, k, now)
    ensures StaysAt(root, live, now, entries[k])
    ensures HalfPromoted(root, live, files, entries, k + 1,
      Moved(now, Source(root, entries[k]), Resolve(live, entries[k].segments)))
  {
    hide Named, Resolve, Source, Staged;
    var from, to := Source(root, entries[k]), Resolve(live, entries[k].segments);
    assert At(now, from) == if Named(root, entries[..k], from) then None else At(Staged(root, entries), from);
    forall p ensures Named(root, entries[..k + 1], p) <==> Named(root, entries[..k], p) || from == p {
      NamedSnoc(root, entries, k, p);
    }
    var after := Moved(now, from, to);
    assert from in now <==> Promotes(root, entries, k);
    assert from in now ==> InUploads(root, live, to) && now[from] == Staged(root, entries)[from];
    forall p | root <= p
      ensures At(after, p) == if Named(root, entries[..k + 1], p) then None else At(Staged(root, entries), p)
    {
      assert At(now, p) == if Named(root, entries[..k], p) then None else At(Staged(root, entries), p);
    }
    forall p | !(root <= p) ensures At(after, p) == LiveContent(root, live, files, entries, k + 1, p) {
      assert At(now, p) == LiveContent(root, live, files, entries, k, p);
    }
  }

  lemma PassOver(root: Path, live: Path, files: Files, entries: seq<Entry>, k: nat, now: Files)
    requires k < |entries| && entries[k].segments == []
    requires HalfPromoted(root, live, files, entries, k, now)
    ensures HalfPromoted(root, live, files, entries, k + 1, now)
  {
    hide Named, Source, Staged;
    forall p ensures Named(root, entries[..k + 1], p) <==> Named(root, entries[..k], p) {
      NamedSnoc(root, entries, k, p);
    }
  }

  lemma {:induction false} StagedInside(digest: string -> string, root: Path, entries: seq<Entry>)
    requires forall i :: 0 <= i < |entries| ==> Passes(digest, root, entries[i])
    ensures forall p :: p in Staged(root, entries) ==> root <= p
  {
    if entries != [] {
      StagedInside(digest, root, entries[..|entries| - 1]);
    }
  }

  lemma {:induction false} PromotedPartly(
    digest: string -> string, root: Path, live: Path, files: Files, entries: seq<Entry>, k: nat)
    requires forall i :: 0 <= i < |entries| ==> Passes(digest, root, entries[i])
    requires Contained(root, live, entries) && k <= |entries|
    ensures HalfPromoted(root, live, files, entries, k,
      Promoted(root, live, Loaded(files, root, entries), entries[..k]))
  {
    if k == 0 {
      StagedInside(digest, root, entries);
    } else {
      hide HalfPromoted, ContainedAt, Promoted, Loaded, Passes;
      PromotedPartly(digest, root, live, files, entries, k - 1);
      var before := Promoted(root, live, Loaded(files, root, entries), entries[..k - 1]);
      PromotedSnoc(root, live, Loaded(files, root, entries), entries, k - 1);
      assert ContainedAt(root, live, entries, k - 1);
      if entries[k - 1].segments != [] {
        PromoteOne(root, live, files, entries, k - 1, before);
      } else {
        PassOver(root, live, files, entries, k - 1, before);
      }
    }
  }

  lemma ContainedStays(digest: string -> string, root: Path, live: Path, files: Files, entries: seq<Entry>)
    requires forall i :: 0 <= i < |entries| ==> Passes(digest, root, entries[i])
    requires Contained(root, live, entries)
    ensures StaysBelow(root, live, files, entries)
  {
    hide Passes, HalfPromoted, StaysAt, ContainedAt, Promoted, Loaded;
    forall k | 0 <= k < |entries|
      ensures StaysAt(root, live, Promoted(root, live, Loaded(files, root, entries), entries[..k]), entries[k])
    {
      var now := Promoted(root, live, Loaded(files, root, entries), entries[..k]);
      PromotedPartly(digest, root, live, files, entries, k);
      assert ContainedAt(root, live, entries, k);
      if entries[k].segments != [] {
        PromoteOne(root, live, files, entries, k, now);
      } else {
        UnnamedStays(root, live, now, entries[k]);
      }
    }
  }

  lemma UnnamedStays(root: Path, live: Path, now: Files, e: Entry)
    requires e.segments == []
    ensures StaysAt(root, live, now, e)
  {}

  /** A file no entry has named yet is still where it was. */
  lemma {:induction false} UnnamedKept(root: Path, live: Path, files: Files, entries: seq<Entry>, k: nat, p: Path)
    requires k <= |entries| && p in files && !Named(root, entries[..k], p)
    ensures p in Promoted(root, live, files, entries[..k])
  {
    if k > 0 {
      hide Named, Source, Resolve;
      NamedSnoc(root, entries, k - 1, p);
      UnnamedKept(root, live, files, entries, k - 1, p);
      PromotedSnoc(root, live, files, entries, k - 1);
    }
  }

  /** While every move takes a staged file, a file outside the staging directory stays. */
  lemma {:induction false} ForeignKept(root: Path, live: Path, files: Files, entries: seq<Entry>, k: nat, p: Path)
    requires StaysBelow(root, live, files, entries) && k <= |entries|
    requires p in files && !(root <= p)
    ensures p in Promoted(root, live, Loaded(files, root, entries), entries[..k])
  {
    hide Resolve, Loaded, Staged;
    if k > 0 {
      ForeignKept(root, live, files, entries, k - 1, p);
      PromotedSnoc(root, live, Loaded(files, root, entries), entries, k - 1);
      assert StaysAt(root, live, Promoted(root, live, Loaded(files, root, entries), entries[..k - 1]), entries[k - 1]);
      hide Promoted, StaysBelow;
    } else {
      ForeignLoaded(root, files, entries, p);
    }
  }

  lemma ForeignLoaded(root: Path, files: Files, entries: seq<Entry>, p: Path)
    requires p in files && !(root <= p)
    ensures p in Loaded(files, root, entries)
  {
    hide Staged;
  }

  lemma StaysContained(root: Path, live: Path, entries: seq<Entry>, k: nat)
    requires forall files: Files :: StaysBelow(root, live, files, entries)
    requires k < |entries|
    ensures ContainedAt(root, live, entries, k)
  {
    hide Resolve, Named, Staged, Promoted;
    var from := Source(root, entries[k]);
    if entries[k].segments != [] && !(root <= from) {
      var files: Files := map[from := ""];
      assert StaysBelow(root, live, files, entries);
      assert StaysAt(root, live, Promoted(root, live, Loaded(files, root, entries), entries[..k]), entries[k]);
      ForeignKept(root, live, files, entries, k, from);
    }
    if Promotes(root, entries, k) {
      var files: Files := map[];
      assert StaysBelow(root, live, files, entries);
      UnnamedKept(root, live, Loaded(files, root, entries), entries, k, from);
      assert StaysAt(root, live, Promoted(root, live, Loaded(files, root, entries), entries[..k]), entries[k]);
    }
  }

  /**
   * Exactly when the promotion of an accepted archive moves staged files only, and only to places below the uploads,
   * whatever files are there: the condition looks at the entries alone.
   */
  lemma PromotionStaysIff(digest: string -> string, root: Path, live: Path, entries: seq<Entry>)
    requires forall i :: 0 <= i < |entries| ==> Passes(digest, root, entries[i])
    ensures (forall files: Files :: StaysBelow(root, live, files, entries)) <==> Contained(root, live, entries)
  {
    hide StaysBelow, ContainedAt, Passes;
    if Contained(root, live, entries) {
      forall files: Files ensures StaysBelow(root, live, files, entries) {
        ContainedStays(digest, root, live, files, entries);
      }
    }
    if forall files: Files :: StaysBelow(root, live, files, entries) {
      forall k | 0 <= k < |entries| ensures ContainedAt(root, live, entries, k) {
        StaysContained(root, live, entries, k);
      }
    }
  }

  // ----- Every set of files at once -----

  /** The plain claim: whatever promotion moves, it writes below the uploads. */
  ghost predicate WritesBelow(root: Path, live: Path, files: Files, entries: seq<Entry>) {
    forall k :: 0 <= k < |entries| ==>
      WritesBelowAt(
        live, Promoted(root, live, Loaded(files, root, entries), entries[..k]), Source(root, entries[k]), entries[k])
  }

  predicate WritesBelowAt(live: Path, now: Files, from: Path, e: Entry) {
    e.segments != [] && from in now ==> live <= Resolve(live, e.segments)
  }

  /** A file at every place outside the staging directory that an entry names. */
  function WorstFiles(root: Path, entries: seq<Entry>): Files {
    if entries == [] then map[]
    else
      var before, from := WorstFiles(root, entries[..|entries| - 1]), Source(root, entries[|entries| - 1]);
      if root <= from then before else before[from := ""]
  }

  lemma {:induction false} WorstHas(root: Path, entries: seq<Entry>, k: nat)
    requires k < |entries|
    ensures root <= Source(root, entries[k]) || Source(root, entries[k]) in WorstFiles(root, entries)
  {
    hide Source;
    if k < |entries| - 1 {
      WorstHas(root, entries[..|entries| - 1], k);
    }
  }

  /** A place an entry names that is filled with some files is filled, at the same moment, with the worst ones. */
  lemma {:induction false} WorstCovers(root: Path, live: Path, files: Files, entries: seq<Entry>, k: nat, i: nat)
    requires k <= |entries| && i < |entries|
    ensures var from := Source(root, entries[i]);
      from in Promoted(root, live, Loaded(files, root, entries), entries[..k]) ==>
        from in Promoted(root, live, Loaded(WorstFiles(root, entries), root, entries), entries[..k])
  {
    hide Source, Resolve, Loaded, WorstFiles;
    if k == 0 {
      WorstLoaded(root, files, entries, i);
    } else {
      PromotedSnoc(root, live, Loaded(files, root, entries), entries, k - 1);
      PromotedSnoc(root, live, Loaded(WorstFiles(root, entries), root, entries), entries, k - 1);
      WorstCovers(root, live, files, entries, k - 1, i);
      WorstCovers(root, live, files, entries, k - 1, k - 1);
    }
  }

  lemma WorstLoaded(root: Path, files: Files, entries: seq<Entry>, i: nat)
    requires i < |entries|
    ensures Source(root, entries[i]) in Loaded(files, root, entries) ==>
      Source(root, entries[i]) in Loaded(WorstFiles(root, entries), root, entries)
  {
    hide Source, Staged, WorstFiles;
    WorstHas(root, entries, i);
  }

  /** Promotion writes below the uploads whatever files are there, if and only if it does with the worst ones. */
  lemma WritesBelowIff(root: Path, live: Path, entries: seq<Entry>)
    ensures (forall files: Files :: WritesBelow(root, live, files, entries)) <==>
      WritesBelow(root, live, WorstFiles(root, entries), entries)
  {
    hide Resolve, Source, WorstFiles, Promoted, Loaded;
    if WritesBelow(root, live, WorstFiles(root, entries), entries) {
      forall files: Files ensures WritesBelow(root, live, files, entries) {
        forall k | 0 <= k < |entries|
          ensures WritesBelowAt(
            live, Promoted(root, live, Loaded(files, root, entries), entries[..k]), Source(root, entries[k]),
            entries[k])
        {
          WorstCovers(root, live, files, entries, k, k);
          assert WritesBelowAt(live,
            Promoted(root, live, Loaded(WorstFiles(root, entries), root, entries), entries[..k]),
                               Source(root, entries[k]), entries[k]);
        }
      }
    }
  }

  /** The test per entry is enough for the plain claim as well. */
  lemma ContainedWritesBelow(digest: string -> string, root: Path, live: Path, files: Files, entries: seq<Entry>)
    requires forall i :: 0 <= i < |entries| ==> Passes(digest, root, entries[i])
    requires Contained(root, live, entries)
    ensures WritesBelow(root, live, files, entries)
  {
    hide Passes, Contained, Promoted, Loaded, Resolve;
    ContainedStays(digest, root, live, files, entries);
    forall k | 0 <= k < |entries|
      ensures WritesBelowAt(
        live, Promoted(root, live, Loaded(files, root, entries), entries[..k]), Source(root, entries[k]), entries[k])
    {
      assert StaysAt(root, live, Promoted(root, live, Loaded(files, root, entries), entries[..k]), entries[k]);
    }
  }

  // ----- What a restored archive leaves -----

  /**
   * After k entries of a contained archive each place holds the staged file of the last entry promoted to it, and every
   * other file is as it was: a promotion that fails there leaves just these places replaced, for the compensating
   * rollback gives the database back, not the files.
   */
  lemma PartlyRestoredFiles(
    digest: string -> string, files: Files, root: Path, live: Path, entries: seq<Entry>, k: nat, p: Path)
    requires forall i :: 0 <= i < |entries| ==> Passes(digest, root, entries[i])
    requires Contained(root, live, entries) && !(root <= p) && k <= |entries|
    ensures At(Live(files, root, live, entries, k), p) == LiveContent(root, live, files, entries, k, p)
  {
    hide Promoted, Loaded, Passes, ContainedAt, LiveContent;
    PromotedPartly(digest, root, live, files, entries, k);
  }

  /** The content of the last entry staged at a place. */
  function LastStaged(root: Path, entries: seq<Entry>, place: Path): Option<string> {
    if entries == [] then None
    else
      var e := entries[|entries| - 1];
      if IsStaged(e) && StagingTarget(root, e) == place then e.content
      else LastStaged(root, entries[..|entries| - 1], place)
  }

  lemma {:induction false} StagedIsLast(root: Path, entries: seq<Entry>, place: Path)
    ensures At(Staged(root, entries), place) == LastStaged(root, entries, place)
  {
    if entries != [] {
      StagedIsLast(root, entries[..|entries| - 1], place);
    }
  }

  /**
   * What a restore leaves at place p: the last content staged for the last entry promoted to p, else what was there.
   */
  ghost predicate RestoredAt(files: Files, root: Path, live: Path, entries: seq<Entry>, after: Files, p: Path) {
    || (exists k :: 0 <= k < |entries| && Promotes(root, entries, k) && Resolve(live, entries[k].segments) == p
          && At(after, p) == LastStaged(root, entries, Source(root, entries[k])) && At(after, p).Some?)
    || ((forall k :: 0 <= k < |entries| && Promotes(root, entries, k) ==> Resolve(live, entries[k].segments) != p)
        && At(after, p) == At(files, p))
  }

  lemma {:induction false} LiveContentIs(root: Path, live: Path, files: Files, entries: seq<Entry>, k: nat, p: Path)
    requires k <= |entries|
    ensures
      || (exists i :: 0 <= i < k && Promotes(root, entries, i) && Resolve(live, entries[i].segments) == p
            && LiveContent(root, live, files, entries, k, p) == LastStaged(root, entries, Source(root, entries[i]))
            && LiveContent(root, live, files, entries, k, p).Some?)
      || ((forall i :: 0 <= i < k && Promotes(root, entries, i) ==> Resolve(live, entries[i].segments) != p)
          && LiveContent(root, live, files, entries, k, p) == At(files, p))
  {
    hide Resolve, Source, Named, Staged, LastStaged;
    if k > 0 {
      LiveContentIs(root, live, files, entries, k - 1, p);
      StagedIsLast(root, entries, Source(root, entries[k - 1]));
    }
  }

  /**
   * After a restore of a contained archive each place promoted to holds what was staged last for it; nothing else
   * changes.
   */
  lemma RestoredFiles(digest: string -> string, files: Files, root: Path, live: Path, entries: seq<Entry>, p: Path)
    requires forall i :: 0 <= i < |entries| ==> Passes(digest, root, entries[i])
    requires Contained(root, live, entries) && !(root <= p)
    ensures RestoredAt(files, root, live, entries, Live(files, root, live, entries, |entries|), p)
    ensures !(live <= p) ==> At(Live(files, root, live, entries, |entries|), p) == At(files, p)
  {
    hide Passes, Live, Resolve, Source, Promotes, LiveContent;
    PartlyRestoredFiles(digest, files, root, live, entries, |entries|, p);
    LiveContentIs(root, live, files, entries, |entries|, p);
    if !(live <= p) {
      forall k | 0 <= k < |entries| && Promotes(root, entries, k) ensures Resolve(live, entries[k].segments) != p {
        assert ContainedAt(root, live, entries, k);
      }
    }
  }

  // ----- Entries as the backup writes them -----

  /** Where a path leads below any directory, if it never climbs above it. */
  function Below(segments: seq<string>): Option<Path> {
    if segments == [] then Some([])
    else
      var at, s := Below(segments[..|segments| - 1]), segments[|segments| - 1];
      if at.None? then None
      else if s == ".." && at.value == [] then None
      else Some(Descend(at.value, s))
  }

  lemma {:induction false} ResolveBelow(at: Path, segments: seq<string>)
    requires Below(segments).Some?
    ensures Resolve(at, segments) == at + Below(segments).value
  {
    if segments != [] {
      ResolveBelow(at, segments[..|segments| - 1]);
    }
  }

  /** Paths that never climb, and do not spell out the staging directory, make a contained archive. */
  lemma ClimbingNowhereContained(root: Path, live: Path, entries: seq<Entry>)
    requires forall i :: 0 <= i < |entries| ==>
      Below(entries[i].segments).Some? && !(root <= live + Below(entries[i].segments).value)
    ensures Contained(root, live, entries)
  {
    hide Promotes, Resolve, Below;
    forall k | 0 <= k < |entries| ensures ContainedAt(root, live, entries, k) {
      ResolveBelow(root, entries[k].segments);
      ResolveBelow(live, entries[k].segments);
    }
  }

  /** A path that leaves the staging directory and comes back by its name. */
  const RETURNING := Entry(false, ["..", "attachments", "x"], Some("y"), None)

  lemma ReturningResolves()
    ensures Source(["backups", "attachments"], RETURNING) == ["backups", "attachments", "x"]
    ensures StagingTarget(["backups", "attachments"], RETURNING) == ["backups", "attachments", "x"]
    ensures Resolve(["uploads"], RETURNING.segments) == ["attachments", "x"] && !(["uploads"] <= ["attachments", "x"])
  {
    ResolveThree(["backups", "attachments"], RETURNING.segments);
    ResolveThree(["uploads"], RETURNING.segments);
    assert ["uploads"][0] != ["attachments", "x"][0];
  }

  /** The path check alone does not make an archive contained: it looks at the staging directory, not at the uploads. */
  lemma AcceptedNotContained(digest: string -> string)
    ensures Passes(digest, ["backups", "attachments"], RETURNING)
    ensures !Contained(["backups", "attachments"], ["uploads"], [RETURNING])
  {
    hide Resolve, Source, StagingTarget;
    var root := ["backups", "attachments"];
    ReturningResolves();
    assert [RETURNING][..0] == [];
    assert Source(root, RETURNING) in Staged(root, [RETURNING]);
    assert !Named(root, [], Source(root, RETURNING));
    assert !ContainedAt(root, ["uploads"], [RETURNING], 0);
  }

  /** Its file ends beside the uploads. */
  lemma AcceptedPromotedElsewhere()
    ensures !WritesBelow(["backups", "attachments"], ["uploads"], map[], [RETURNING])
    ensures At(Live(map[], ["backups", "attachments"], ["uploads"], [RETURNING], 1), ["attachments", "x"]) == Some("y")
  {
    hide Resolve, Source, StagingTarget;
    var root := ["backups", "attachments"];
    ReturningResolves();
    assert [RETURNING][..0] == [] && [RETURNING][..1] == [RETURNING];
    var loaded := Loaded(map[], root, [RETURNING]);
    assert Staged(root, []) == map[] && Staged(root, [RETURNING]) == map[["backups", "attachments", "x"] := "y"];
    assert loaded == map[["backups", "attachments", "x"] := "y"];
    PromotedSnoc(root, ["uploads"], loaded, [RETURNING], 0);
    assert !WritesBelowAt(["uploads"], loaded, Source(root, RETURNING), RETURNING);
  }

  lemma ResolveThree(at: Path, segments: seq<string>)
    requires |segments| == 3
    ensures Resolve(at, segments) == Descend(Descend(Descend(at, segments[0]), segments[1]), segments[2])
  {
    assert segments[..2][..1] == segments[..1] && segments[..1][..0] == [];
    assert Resolve(at, segments[..1]) == Descend(at, segments[0]);
  }
}
