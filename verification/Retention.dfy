/** The backup history and the grandfather-father-son retention sweep over it. */
module Retention {
  import opened Prelude

  datatype Backup = Backup(id: string, createdAt: int)

  /** The keys a creation time is filed under; the results below hold for any keys. */
  datatype Calendar = Calendar(week: int -> string, month: int -> string)

  const DAY_MS := 24 * 60 * 60 * 1000
  const DAILY := 30
  const WEEKLY := 84
  const MONTHLY := 365

  predicate Within(b: Backup, now: int, days: int) {
    now - b.createdAt <= days * DAY_MS
  }

  datatype Tier = Daily | Weekly | Monthly | Expired

  function TierOf(cal: Calendar, now: int, weeks: set<string>, months: set<string>, b: Backup): Tier {
    if Within(b, now, DAILY) then Daily
    else if Within(b, now, WEEKLY) && cal.week(b.createdAt) !in weeks then Weekly
    else if Within(b, now, MONTHLY) && cal.month(b.createdAt) !in months then Monthly
    else Expired
  }

  datatype Sweep = Sweep(weeks: set<string>, months: set<string>, tiers: seq<Tier>)

  /** The whole sweep: the keys that have their representative, and the tier each backup falls in. */
  function Swept(cal: Calendar, now: int, h: seq<Backup>): (s: Sweep)
    ensures |s.tiers| == |h|
  {
    if h == [] then Sweep({}, {}, [])
    else
      var s := Swept(cal, now, h[..|h| - 1]);
      var b := h[|h| - 1];
      var tier := TierOf(cal, now, s.weeks, s.months, b);
      Sweep(
        if tier == Weekly then s.weeks + {cal.week(b.createdAt)} else s.weeks,
        if tier == Monthly then s.months + {cal.month(b.createdAt)} else s.months,
        s.tiers + [tier])
  }

  function Marked(h: seq<Backup>, tiers: seq<Tier>): seq<Backup>
    requires |tiers| == |h|
  {
    if h == [] then []
    else Marked(h[..|h| - 1], tiers[..|h| - 1]) + if tiers[|h| - 1] == Expired then [h[|h| - 1]] else []
  }

  /** The loop of the cleanup, with its two maps from key to representative. */
  method CleanOldBackupsRetention(cal: Calendar, now: int, history: seq<Backup>) returns (toDelete: seq<Backup>)
    ensures toDelete == Marked(history, Swept(cal, now, history).tiers)
  {
    var weeklyMap: map<string, string>, monthlyMap: map<string, string> := map[], map[];
    toDelete := [];
    for i := 0 to |history|
      invariant weeklyMap.Keys == Swept(cal, now, history[..i]).weeks
      invariant monthlyMap.Keys == Swept(cal, now, history[..i]).months
      invariant toDelete == Marked(history[..i], Swept(cal, now, history[..i]).tiers)
    {
      var item := history[i];
      ghost var before := Swept(cal, now, history[..i]);
      assert history[..i + 1][..i] == history[..i];
      assert Swept(cal, now, history[..i + 1]).tiers[..i] == before.tiers;
      if now - item.createdAt <= DAILY * DAY_MS {
        continue;
      }
      if now - item.createdAt <= WEEKLY * DAY_MS {
        var weekKey := cal.week(item.createdAt);
        if weekKey !in weeklyMap {
          weeklyMap := weeklyMap[weekKey := item.id];
          continue;
        }
      }
      if now - item.createdAt <= MONTHLY * DAY_MS {
        var monthKey := cal.month(item.createdAt);
        if monthKey !in monthlyMap {
          monthlyMap := monthlyMap[monthKey := item.id];
          continue;
        }
      }
      toDelete := toDelete + [item];
    }
    assert history[..|history|] == history;
  }

  // ----- What the tiers mean -----

  predicate InWeeklyBand(now: int, b: Backup) {
    30 * 86_400_000 < now - b.createdAt <= 84 * 86_400_000
  }

  /** The first backup of its week in the band, hence the newest one in a newest-first history. */
  ghost predicate FirstOfWeek(cal: Calendar, now: int, h: seq<Backup>, i: nat)
    requires i < |h|
  {
    InWeeklyBand(now, h[i]) &&
    forall j :: 0 <= j < i && InWeeklyBand(now, h[j]) ==> cal.week(h[j].createdAt) != cal.week(h[i].createdAt)
  }

  ghost predicate LeftToMonth(cal: Calendar, now: int, h: seq<Backup>, i: nat)
    requires i < |h|
  {
    30 * 86_400_000 < now - h[i].createdAt <= 365 * 86_400_000 && !FirstOfWeek(cal, now, h, i)
  }

  ghost predicate FirstOfMonth(cal: Calendar, now: int, h: seq<Backup>, i: nat)
    requires i < |h|
  {
    LeftToMonth(cal, now, h, i) &&
    forall j :: 0 <= j < i && LeftToMonth(cal, now, h, j) ==> cal.month(h[j].createdAt) != cal.month(h[i].createdAt)
  }

  lemma PrefixTier(cal: Calendar, now: int, h: seq<Backup>, i: nat)
    requires i < |h|
    ensures var s := Swept(cal, now, h[..i]); Swept(cal, now, h).tiers[i] == TierOf(cal, now, s.weeks, s.months, h[i])
    ensures Swept(cal, now, h).tiers[..i] == Swept(cal, now, h[..i]).tiers
  {
    if i < |h| - 1 {
      assert h[..|h| - 1][..i] == h[..i];
      PrefixTier(cal, now, h[..|h| - 1], i);
    }
  }

  /** The representative sets hold exactly the weeks of the band and the months of the backups left to the months. */
  lemma {:induction false} KeysMeaning(cal: Calendar, now: int, h: seq<Backup>)
    ensures forall k :: k in Swept(cal, now, h).weeks <==>
      exists j :: 0 <= j < |h| && InWeeklyBand(now, h[j]) && cal.week(h[j].createdAt) == k
    ensures forall k :: k in Swept(cal, now, h).months <==>
      exists j :: 0 <= j < |h| && LeftToMonth(cal, now, h, j) && cal.month(h[j].createdAt) == k
  {
    if h != [] {
      var init := h[..|h| - 1];
      KeysMeaning(cal, now, init);
      forall j | 0 <= j < |init| ensures LeftToMonth(cal, now, init, j) == LeftToMonth(cal, now, h, j) {
        assert forall i :: 0 <= i < j ==> init[i] == h[i];
      }
      var last := |h| - 1;
      assert LeftToMonth(cal, now, h, last) == (!Within(h[last], now, DAILY) && Within(h[last], now, MONTHLY)
        && !(InWeeklyBand(now, h[last]) && cal.week(h[last].createdAt) !in Swept(cal, now, init).weeks));
    }
  }

  /** Which backups the sweep keeps, said without the sweep. */
  lemma TierMeaning(cal: Calendar, now: int, h: seq<Backup>, i: nat)
    requires i < |h|
    ensures var tier := Swept(cal, now, h).tiers[i];
      && (tier == Daily <==> now - h[i].createdAt <= 30 * 86_400_000)
      && (tier == Weekly <==> FirstOfWeek(cal, now, h, i))
      && (tier == Monthly <==> FirstOfMonth(cal, now, h, i))
  {
    PrefixTier(cal, now, h, i);
    KeysMeaning(cal, now, h[..i]);
    forall j | 0 <= j < i ensures LeftToMonth(cal, now, h[..i], j) == LeftToMonth(cal, now, h, j) {
      assert forall k :: 0 <= k < j ==> h[..i][k] == h[k];
    }
  }

  // ----- Reading the history -----

  ghost predicate NewestFirst(h: seq<Backup>) {
    forall i, j :: 0 <= i < j < |h| ==> h[i].createdAt >= h[j].createdAt
  }

  function InsertNewest(h: seq<Backup>, b: Backup): (r: seq<Backup>)
    ensures multiset(r) == multiset(h) + multiset{b}
    ensures forall x :: x in r <==> x == b || x in h
  {
    if h == [] || b.createdAt > h[0].createdAt then [b] + h
    else
      assert h == [h[0]] + h[1..];
      [h[0]] + InsertNewest(h[1..], b)
  }

  lemma {:induction false} InsertSorted(h: seq<Backup>, b: Backup)
    requires NewestFirst(h)
    ensures NewestFirst(InsertNewest(h, b))
  {
    if h != [] && b.createdAt <= h[0].createdAt {
      InsertSorted(h[1..], b);
      var rest := InsertNewest(h[1..], b);
      forall i | 0 <= i < |rest| ensures rest[i].createdAt <= h[0].createdAt {
        assert rest[i] in rest;
      }
    }
  }

  /** A stable sort, newest first. */
  function Sorted(bs: seq<Backup>): (r: seq<Backup>)
    ensures multiset(r) == multiset(bs)
  {
    if bs == [] then []
    else
      assert bs == bs[..|bs| - 1] + [bs[|bs| - 1]];
      InsertNewest(Sorted(bs[..|bs| - 1]), bs[|bs| - 1])
  }

  lemma {:induction false} SortedIsNewestFirst(bs: seq<Backup>)
    ensures NewestFirst(Sorted(bs))
  {
    if bs != [] {
      SortedIsNewestFirst(bs[..|bs| - 1]);
      InsertSorted(Sorted(bs[..|bs| - 1]), bs[|bs| - 1]);
    }
  }

  /** The backups of one moment, in their order. */
  function MadeAt(bs: seq<Backup>, at: int): seq<Backup> {
    if bs == [] then [] else (if bs[0].createdAt == at then [bs[0]] else []) + MadeAt(bs[1..], at)
  }

  lemma {:induction false} MadeSnoc(bs: seq<Backup>, b: Backup, at: int)
    ensures MadeAt(bs + [b], at) == MadeAt(bs, at) + if b.createdAt == at then [b] else []
  {
    if bs == [] {
      assert [] + [b] == [b];
    } else {
      MadeSnoc(bs[1..], b, at);
      assert (bs + [b])[1..] == bs[1..] + [b];
    }
  }

  lemma {:induction false} NoneSoLate(h: seq<Backup>, at: int)
    requires forall i :: 0 <= i < |h| ==> h[i].createdAt < at
    ensures MadeAt(h, at) == []
  {
    if h != [] {
      NoneSoLate(h[1..], at);
    }
  }

  lemma MadeFront(b: Backup, rest: seq<Backup>, at: int)
    ensures MadeAt([b] + rest, at) == (if b.createdAt == at then [b] else []) + MadeAt(rest, at)
  {
    assert ([b] + rest)[1..] == rest;
  }

  lemma {:induction false} InsertStable(h: seq<Backup>, b: Backup, at: int)
    requires NewestFirst(h)
    ensures MadeAt(InsertNewest(h, b), at) == MadeAt(h, at) + if b.createdAt == at then [b] else []
  {
    hide MadeAt;
    if h == [] || b.createdAt > h[0].createdAt {
      MadeFront(b, h, at);
      if b.createdAt == at {
        NoneSoLate(h, at);
      }
    } else {
      InsertStable(h[1..], b, at);
      MadeFront(h[0], h[1..], at);
      MadeFront(h[0], InsertNewest(h[1..], b), at);
      assert h == [h[0]] + h[1..];
    }
  }

  /** The sort is stable: backups of one moment stay in the order in which they were listed. */
  lemma {:induction false} SortedStable(bs: seq<Backup>, at: int)
    ensures MadeAt(Sorted(bs), at) == MadeAt(bs, at)
  {
    hide InsertNewest, NewestFirst, MadeAt;
    if bs != [] {
      var init, b := bs[..|bs| - 1], bs[|bs| - 1];
      SortedStable(init, at);
      SortedIsNewestFirst(init);
      InsertStable(Sorted(init), b, at);
      MadeSnoc(init, b, at);
      assert init + [b] == bs;
    }
  }

  ghost predicate Listed(bs: seq<Backup>, id: string) {
    exists i :: 0 <= i < |bs| && bs[i].id == id
  }

  /** One manifest an id, the first one listed; None is a malformed manifest. */
  ghost predicate FirstOfEachId(bs: seq<Backup>, listing: seq<Option<Backup>>) {
    && (forall i, j :: 0 <= i < j < |bs| ==> bs[i].id != bs[j].id)
    && (forall k :: 0 <= k < |listing| && listing[k].Some? ==> Listed(bs, listing[k].value.id))
    && (forall i :: 0 <= i < |bs| ==> FirstListed(listing, bs[i]))
  }

  ghost predicate FirstWithId(listing: seq<Option<Backup>>, k: nat, b: Backup)
    requires k < |listing|
  {
    listing[k] == Some(b) && forall j :: 0 <= j < k && listing[j].Some? ==> listing[j].value.id != b.id
  }

  ghost predicate FirstListed(listing: seq<Option<Backup>>, b: Backup) {
    exists k :: 0 <= k < |listing| && FirstWithId(listing, k, b)
  }

  function Flatten(dirs: seq<seq<Option<Backup>>>): seq<Option<Backup>> {
    if dirs == [] then [] else Flatten(dirs[..|dirs| - 1]) + dirs[|dirs| - 1]
  }

  lemma AddListed(bs: seq<Backup>, listing: seq<Option<Backup>>, next: Option<Backup>)
    requires FirstOfEachId(bs, listing)
    ensures next.Some? && !Listed(bs, next.value.id) ==> FirstOfEachId(bs + [next.value], listing + [next])
    ensures next.Some? && Listed(bs, next.value.id) ==> FirstOfEachId(bs, listing + [next])
    ensures next.None? ==> FirstOfEachId(bs, listing + [next])
  {
    var more := listing + [next];
    forall i | 0 <= i < |bs| ensures FirstListed(more, bs[i]) {
      assert FirstListed(listing, bs[i]);
      var k :| 0 <= k < |listing| && FirstWithId(listing, k, bs[i]);
      assert FirstWithId(more, k, bs[i]);
    }
    if next.Some? && !Listed(bs, next.value.id) {
      var grown := bs + [next.value];
      assert FirstWithId(more, |listing|, next.value) && FirstListed(more, next.value);
      assert Listed(grown, next.value.id) by {
        assert grown[|bs|].id == next.value.id;
      }
      forall k | 0 <= k < |listing| && listing[k].Some? ensures Listed(grown, listing[k].value.id) {
        assert Listed(bs, listing[k].value.id);
        var i :| 0 <= i < |bs| && bs[i].id == listing[k].value.id;
        assert grown[i].id == listing[k].value.id;
      }
    }
  }

  function Merged(listing: seq<Option<Backup>>): seq<Backup> {
    if listing == [] then []
    else
      var bs, next := Merged(listing[..|listing| - 1]), listing[|listing| - 1];
      if next.Some? && forall i | 0 <= i < |bs| :: bs[i].id != next.value.id then bs + [next.value] else bs
  }

  lemma {:induction false} MergedMeaning(listing: seq<Option<Backup>>)
    ensures FirstOfEachId(Merged(listing), listing)
  {
    if listing != [] {
      var init := listing[..|listing| - 1];
      MergedMeaning(init);
      AddListed(Merged(init), init, listing[|listing| - 1]);
      assert init + [listing[|listing| - 1]] == listing;
    }
  }

  lemma MergedSnoc(listing: seq<Option<Backup>>, next: Option<Backup>)
    ensures var bs := Merged(listing);
      Merged(listing + [next]) ==
        if next.Some? && forall i | 0 <= i < |bs| :: bs[i].id != next.value.id then bs + [next.value] else bs
  {
    assert (listing + [next])[..|listing|] == listing;
  }

  lemma NothingListed(dirs: seq<seq<Option<Backup>>>)
    ensures Merged(Flatten(dirs[..0])) == []
  {}

  lemma FlattenSnoc(dirs: seq<seq<Option<Backup>>>, d: nat)
    requires d < |dirs|
    ensures Flatten(dirs[..d + 1]) == Flatten(dirs[..d]) + dirs[d]
  {
    assert dirs[..d + 1][..d] == dirs[..d];
  }

  /** Every directory, every manifest file in it; the sort is the runtime's stable one. */
  method GetBackupHistory(dirs: seq<seq<Option<Backup>>>) returns (history: seq<Backup>)
    ensures history == Sorted(Merged(Flatten(dirs)))
  {
    hide Sorted, Merged;
    var manifests: seq<Backup> := [];
    NothingListed(dirs);
    for d := 0 to |dirs|
      invariant manifests == Merged(Flatten(dirs[..d]))
    {
      hide Flatten;
      ghost var earlier := Flatten(dirs[..d]);
      assert earlier + dirs[d][..0] == earlier;
      for f := 0 to |dirs[d]|
        invariant manifests == Merged(earlier + dirs[d][..f])
      {
        var parsed := dirs[d][f];
        MergedSnoc(earlier + dirs[d][..f], parsed);
        assert earlier + dirs[d][..f + 1] == earlier + dirs[d][..f] + [parsed];
        if parsed.Some? && forall i | 0 <= i < |manifests| :: manifests[i].id != parsed.value.id {
          manifests := manifests + [parsed.value];
        }
      }
      FlattenSnoc(dirs, d);
      assert dirs[d][..|dirs[d]|] == dirs[d];
    }
    assert dirs[..|dirs|] == dirs;
    history := Sorted(manifests);
  }

  // ----- What survives one cleanup -----

  /** Backups marked for deletion may stay all the same: uploads are never removed, and a file may be locked. */
  function Survivors(h: seq<Backup>, tiers: seq<Tier>, spared: set<string>): seq<Backup>
    requires |tiers| == |h|
  {
    if h == [] then []
    else
      var b := h[|h| - 1];
      Survivors(h[..|h| - 1], tiers[..|h| - 1], spared)
        + if tiers[|h| - 1] != Expired || b.id in spared then [b] else []
  }

  function Cleaned(cal: Calendar, now: int, h: seq<Backup>, spared: set<string>): seq<Backup> {
    Survivors(h, Swept(cal, now, h).tiers, spared)
  }

  lemma {:induction false} SurvivorsAre(h: seq<Backup>, tiers: seq<Tier>, spared: set<string>)
    requires |tiers| == |h|
    ensures forall b :: b in Survivors(h, tiers, spared) <==>
      exists i :: 0 <= i < |h| && h[i] == b && (tiers[i] != Expired || b.id in spared)
  {
    if h != [] {
      SurvivorsAre(h[..|h| - 1], tiers[..|h| - 1], spared);
    }
  }

  lemma {:induction false} SurvivorsSorted(h: seq<Backup>, tiers: seq<Tier>, spared: set<string>)
    requires |tiers| == |h| && NewestFirst(h)
    ensures NewestFirst(Survivors(h, tiers, spared))
  {
    if h != [] {
      var init, last := h[..|h| - 1], h[|h| - 1];
      var kept := Survivors(init, tiers[..|h| - 1], spared);
      SurvivorsSorted(init, tiers[..|h| - 1], spared);
      SurvivorsAre(init, tiers[..|h| - 1], spared);
      forall i | 0 <= i < |kept| ensures kept[i].createdAt >= last.createdAt {
        assert kept[i] in kept;
      }
    }
  }

  /** Every backup up to 30 days old survives. */
  lemma DailyKept(cal: Calendar, now: int, h: seq<Backup>, i: nat, spared: set<string>)
    requires i < |h| && now - h[i].createdAt <= 30 * 86_400_000
    ensures h[i] in Cleaned(cal, now, h, spared)
  {
    TierMeaning(cal, now, h, i);
    SurvivorsAre(h, Swept(cal, now, h).tiers, spared);
  }

  ghost predicate CoveredBy(key: int -> string, b: Backup, h: seq<Backup>) {
    exists s :: s in h && key(s.createdAt) == key(b.createdAt) && s.createdAt >= b.createdAt
  }

  /** For every backup up to 84 days old, one of its week, no older, survives. */
  lemma {:induction false} WeekKept(cal: Calendar, now: int, h: seq<Backup>, i: nat, spared: set<string>)
    requires NewestFirst(h) && i < |h| && now - h[i].createdAt <= 84 * 86_400_000
    ensures CoveredBy(cal.week, h[i], Cleaned(cal, now, h, spared))
    decreases i
  {
    TierMeaning(cal, now, h, i);
    SurvivorsAre(h, Swept(cal, now, h).tiers, spared);
    if now - h[i].createdAt > 30 * 86_400_000 && !FirstOfWeek(cal, now, h, i) {
      var j :| 0 <= j < i && InWeeklyBand(now, h[j]) && cal.week(h[j].createdAt) == cal.week(h[i].createdAt);
      WeekKept(cal, now, h, j, spared);
    } else {
      assert h[i] in Cleaned(cal, now, h, spared);
    }
  }

  /** For every backup up to 365 days old, one of its month, no older, survives. */
  lemma {:induction false} MonthKept(cal: Calendar, now: int, h: seq<Backup>, i: nat, spared: set<string>)
    requires NewestFirst(h) && i < |h| && now - h[i].createdAt <= 365 * 86_400_000
    ensures CoveredBy(cal.month, h[i], Cleaned(cal, now, h, spared))
    decreases i
  {
    TierMeaning(cal, now, h, i);
    SurvivorsAre(h, Swept(cal, now, h).tiers, spared);
    if LeftToMonth(cal, now, h, i) && !FirstOfMonth(cal, now, h, i) {
      var j :| 0 <= j < i && LeftToMonth(cal, now, h, j) && cal.month(h[j].createdAt) == cal.month(h[i].createdAt);
      MonthKept(cal, now, h, j, spared);
    } else {
      assert h[i] in Cleaned(cal, now, h, spared);
    }
  }

  function Count(tiers: seq<Tier>, tier: Tier): nat {
    if tiers == [] then 0 else Count(tiers[..|tiers| - 1], tier) + if tiers[|tiers| - 1] == tier then 1 else 0
  }

  /**
   * The backups older than 30 days that the policy keeps are one for each week and one for each month it files them
   * under.
   */
  lemma {:induction false} OldSurvivorsCounted(cal: Calendar, now: int, h: seq<Backup>)
    ensures Count(Swept(cal, now, h).tiers, Weekly) == |Swept(cal, now, h).weeks|
    ensures Count(Swept(cal, now, h).tiers, Monthly) == |Swept(cal, now, h).months|
  {
    if h != [] {
      OldSurvivorsCounted(cal, now, h[..|h| - 1]);
      var tiers := Swept(cal, now, h).tiers;
      assert tiers[..|tiers| - 1] == Swept(cal, now, h[..|h| - 1]).tiers;
    }
  }

  // ----- A second cleanup -----

  function Spared(marked: seq<Backup>, spared: set<string>): seq<Backup> {
    if marked == [] then []
    else
      var last := marked[|marked| - 1];
      Spared(marked[..|marked| - 1], spared) + if last.id in spared then [last] else []
  }

  lemma SweptSnoc(cal: Calendar, now: int, h: seq<Backup>, b: Backup)
    ensures var s := Swept(cal, now, h);
      var tier := TierOf(cal, now, s.weeks, s.months, b);
      var after := Swept(cal, now, h + [b]);
      && after.weeks == (if tier == Weekly then s.weeks + {cal.week(b.createdAt)} else s.weeks)
      && after.months == (if tier == Monthly then s.months + {cal.month(b.createdAt)} else s.months)
      && Marked(h + [b], after.tiers) == Marked(h, s.tiers) + if tier == Expired then [b] else []
  {
    assert (h + [b])[..|h|] == h;
    assert Swept(cal, now, h + [b]).tiers[..|h|] == Swept(cal, now, h).tiers;
  }

  lemma CleanedSnoc(cal: Calendar, now: int, h: seq<Backup>, b: Backup, spared: set<string>)
    ensures var s := Swept(cal, now, h);
      var tier := TierOf(cal, now, s.weeks, s.months, b);
      Cleaned(cal, now, h + [b], spared) ==
        Cleaned(cal, now, h, spared) + if tier != Expired || b.id in spared then [b] else []
  {
    assert (h + [b])[..|h|] == h;
    assert Swept(cal, now, h + [b]).tiers[..|h|] == Swept(cal, now, h).tiers;
  }

  ghost predicate SweepsAlike(cal: Calendar, now: int, h: seq<Backup>, spared: set<string>) {
    var once, after := Swept(cal, now, h), Cleaned(cal, now, h, spared);
    var twice := Swept(cal, now, after);
    && twice.weeks == once.weeks && twice.months == once.months
    && Marked(after, twice.tiers) == Spared(Marked(h, once.tiers), spared)
  }

  /**
   * A second sweep at the same clock files the survivors as the first did, and marks only what the first had marked.
   */
  lemma {:induction false} SecondSweep(cal: Calendar, now: int, h: seq<Backup>, spared: set<string>)
    ensures SweepsAlike(cal, now, h, spared)
  {
    if h != [] {
      assert h == h[..|h| - 1] + [h[|h| - 1]];
      SecondSweep(cal, now, h[..|h| - 1], spared);
      SweepAlikeSnoc(cal, now, h[..|h| - 1], h[|h| - 1], spared);
    }
  }

  lemma SweepAlikeSnoc(cal: Calendar, now: int, h: seq<Backup>, b: Backup, spared: set<string>)
    requires SweepsAlike(cal, now, h, spared)
    ensures SweepsAlike(cal, now, h + [b], spared)
  {
    hide Swept, Cleaned, Marked, Spared;
    SweptSnoc(cal, now, h, b);
    CleanedSnoc(cal, now, h, b, spared);
    SweptSnoc(cal, now, Cleaned(cal, now, h, spared), b);
    var marked := Marked(h, Swept(cal, now, h).tiers);
    SparedSnoc(marked, b, spared);
    assert marked + [] == marked;
    var after := Cleaned(cal, now, h, spared);
    assert after + [] == after;
    assert Marked(after, Swept(cal, now, after).tiers) + [] == Marked(after, Swept(cal, now, after).tiers);
  }

  lemma SparedSnoc(marked: seq<Backup>, b: Backup, spared: set<string>)
    ensures Spared(marked + [b], spared) == Spared(marked, spared) + if b.id in spared then [b] else []
  {
    assert (marked + [b])[..|marked|] == marked;
  }

  lemma {:induction false} NoneSpared(marked: seq<Backup>)
    ensures Spared(marked, {}) == []
  {
    if marked != [] {
      NoneSpared(marked[..|marked| - 1]);
    }
  }

  /** When every marked backup was removed, a second cleanup at the same clock deletes nothing. */
  lemma SecondCleanupIdle(cal: Calendar, now: int, h: seq<Backup>)
    ensures var after := Cleaned(cal, now, h, {}); Marked(after, Swept(cal, now, after).tiers) == []
  {
    SecondSweep(cal, now, h, {});
    NoneSpared(Marked(h, Swept(cal, now, h).tiers));
  }

  // ----- Cleanups and backups over time -----

  datatype Event = Taken(backup: Backup) | Cleanup(elapsed: nat, spared: set<string>)

  datatype Vault = Vault(history: seq<Backup>, clock: int, ever: set<Backup>)

  function Keep(cal: Calendar, v: Vault, e: Event): Vault {
    match e
    case Taken(b) => v.(history := InsertNewest(v.history, b), ever := v.ever + {b})
    case Cleanup(elapsed, spared) =>
      v.(clock := v.clock + elapsed, history := Cleaned(cal, v.clock + elapsed, v.history, spared))
  }

  function KeepAll(cal: Calendar, start: int, events: seq<Event>): Vault {
    if events == [] then Vault([], start, {})
    else Keep(cal, KeepAll(cal, start, events[..|events| - 1]), events[|events| - 1])
  }

  ghost predicate Covered(cal: Calendar, v: Vault) {
    && NewestFirst(v.history)
    && (forall b :: b in v.ever && v.clock - b.createdAt <= 84 * 86_400_000 ==> CoveredBy(cal.week, b, v.history))
    && (forall b :: b in v.ever && v.clock - b.createdAt <= 365 * 86_400_000 ==> CoveredBy(cal.month, b, v.history))
  }

  lemma CleanupCovers(
    cal: Calendar, key: int -> string, days: int, v: Vault, elapsed: nat, spared: set<string>, b: Backup)
    requires NewestFirst(v.history) && CoveredBy(key, b, v.history)
    requires v.clock + elapsed - b.createdAt <= days * 86_400_000
    requires (key, days) == (cal.week, 84) || (key, days) == (cal.month, 365)
    ensures CoveredBy(key, b, Cleaned(cal, v.clock + elapsed, v.history, spared))
  {
    var s :| s in v.history && key(s.createdAt) == key(b.createdAt) && s.createdAt >= b.createdAt;
    var i :| 0 <= i < |v.history| && v.history[i] == s;
    if days == 84 {
      WeekKept(cal, v.clock + elapsed, v.history, i, spared);
    } else {
      MonthKept(cal, v.clock + elapsed, v.history, i, spared);
    }
  }

  lemma KeepCovers(cal: Calendar, v: Vault, e: Event)
    requires Covered(cal, v)
    ensures Covered(cal, Keep(cal, v, e))
  {
    hide CoveredBy, Cleaned;
    match e
    case Taken(b) =>
      InsertSorted(v.history, b);
      forall x, key | (x == b || CoveredBy(key, x, v.history)) ensures CoveredBy(key, x, InsertNewest(v.history, b)) {
        InsertCovers(key, x, v.history, b);
      }
    case Cleanup(elapsed, spared) =>
      var now := v.clock + elapsed;
      CleanedSorted(cal, now, v.history, spared);
      forall b | b in v.ever && now - b.createdAt <= 84 * 86_400_000
        ensures CoveredBy(cal.week, b, Cleaned(cal, now, v.history, spared)) {
        CleanupCovers(cal, cal.week, 84, v, elapsed, spared, b);
      }
      forall b | b in v.ever && now - b.createdAt <= 365 * 86_400_000
        ensures CoveredBy(cal.month, b, Cleaned(cal, now, v.history, spared)) {
        CleanupCovers(cal, cal.month, 365, v, elapsed, spared, b);
      }
  }

  lemma InsertCovers(key: int -> string, x: Backup, h: seq<Backup>, b: Backup)
    requires x == b || CoveredBy(key, x, h)
    ensures CoveredBy(key, x, InsertNewest(h, b))
  {}

  lemma CleanedSorted(cal: Calendar, now: int, h: seq<Backup>, spared: set<string>)
    requires NewestFirst(h)
    ensures NewestFirst(Cleaned(cal, now, h, spared))
  {
    SurvivorsSorted(h, Swept(cal, now, h).tiers, spared);
  }

  /**
   * Through any sequence of backups and cleanups, of every backup ever taken and not yet 84 (365) days old the
   * week (month) still has a backup at least as new.
   */
  lemma {:induction false} AlwaysCovered(cal: Calendar, start: int, events: seq<Event>)
    ensures Covered(cal, KeepAll(cal, start, events))
  {
    if events != [] {
      AlwaysCovered(cal, start, events[..|events| - 1]);
      KeepCovers(cal, KeepAll(cal, start, events[..|events| - 1]), events[|events| - 1]);
    }
  }
}
