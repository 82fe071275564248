/**
 * Gate check-ins running side by side: each counts the day's transactions, looks for an active one of its plate, and
 * creates its own, which the unique transaction number may refuse.
 */
module CheckIn {
  import opened Prelude
  import opened PlantDay
  import opened Plates

  datatype Visit = Visit(number: string, plate: string, createdAt: Instant, active: bool)

  // ----- Transaction numbers -----

  function NumberFor(day: nat, sequence: nat): string {
    "GMS-" + DateKey(CivilOf(day)) + "-" + PadStart(Decimal(sequence), 4)
  }

  /** Numbers of different days or different places in a day differ, sequences past 9999 included. */
  lemma NumbersDiffer(a: Instant, b: Instant, i: nat, j: nat)
    requires NumberFor(DayIndex(a), i) == NumberFor(DayIndex(b), j)
    ensures DayIndex(a) == DayIndex(b) && i == j
  {
    hide CivilOf, DateKey, Decimal, PadStart, DayIndex;
    var x, y := DayIndex(a), DayIndex(b);
    KeyOfOneDay(x, y);
    KeyOfOneDay(y, x);
    var s, t := PadStart(Decimal(i), 4), PadStart(Decimal(j), 4);
    assert NumberFor(x, i)[4..12] == DateKey(CivilOf(x));
    assert NumberFor(y, j)[4..12] == DateKey(CivilOf(y));
    assert NumberFor(x, i)[13..] == s && NumberFor(y, j)[13..] == t;
    PaddedDistinct(i, j, 4);
  }

  /** The database's count over the window. */
  function CountIn(visits: seq<Visit>, start: int, end: int): nat {
    if visits == [] then 0
    else CountIn(visits[..|visits| - 1], start, end) + if start <= visits[|visits| - 1].createdAt < end then 1 else 0
  }

  function GenerateTransactionNumber(visits: seq<Visit>, now: Instant): string {
    var today := GetPlantDay(now);
    "GMS-" + today.dateKey + "-" + PadStart(Decimal(CountIn(visits, today.start, today.end) + 1), 4)
  }

  function CountDay(visits: seq<Visit>, day: nat): nat {
    if visits == [] then 0
    else CountDay(visits[..|visits| - 1], day) + if DayIndex(visits[|visits| - 1].createdAt) == day then 1 else 0
  }

  lemma {:induction false} CountInWindow(visits: seq<Visit>, now: Instant)
    ensures CountIn(visits, GetPlantDay(now).start, GetPlantDay(now).end) == CountDay(visits, DayIndex(now))
  {
    hide GetPlantDay, DayIndex;
    if visits != [] {
      CountInWindow(visits[..|visits| - 1], now);
      WindowOfItsInstants(now, visits[|visits| - 1].createdAt);
    }
  }

  lemma GeneratedNumber(visits: seq<Visit>, now: Instant)
    ensures GenerateTransactionNumber(visits, now) == NumberFor(DayIndex(now), CountDay(visits, DayIndex(now)) + 1)
  {
    CountInWindow(visits, now);
  }

  /** A number shows its day and its place in it. */
  lemma NumberReadsBack(day: nat, sequence: nat)
    requires day <= LAST_DAY
    ensures var number, c := NumberFor(day, sequence), CivilOf(day);
      && |number| >= 17 && number[..4] == "GMS-" && number[12] == '-'
      && Value(number[4..8]) == c.year && Value(number[8..10]) == c.month && Value(number[10..12]) == c.day
      && Value(number[13..]) == sequence
  {
    hide CivilOf, Decimal, PadStart, Value, DateKey;
    KeyReadsBack(day);
    var key, place, number := DateKey(CivilOf(day)), PadStart(Decimal(sequence), 4), NumberFor(day, sequence);
    assert number[4..8] == key[..4] && number[8..10] == key[4..6] && number[10..12] == key[6..];
    assert number[13..] == place;
    ValueOfPadded(Decimal(sequence), 4);
    ValueOfDecimal(sequence);
  }

  /** Every visit has the number after those its day had when it was created: a day's numbers are exactly 1 to n. */
  ghost predicate Numbered(visits: seq<Visit>) {
    forall i :: 0 <= i < |visits| ==> NumberedAt(visits, i)
  }

  ghost predicate NumberedAt(visits: seq<Visit>, i: nat)
    requires i < |visits|
  {
    var day := DayIndex(visits[i].createdAt);
    visits[i].number == NumberFor(day, CountDay(visits[..i], day) + 1)
  }

  lemma {:induction false} NthOfDay(visits: seq<Visit>, day: nat, n: nat)
    requires n < CountDay(visits, day)
    ensures exists i :: 0 <= i < |visits| && DayIndex(visits[i].createdAt) == day && CountDay(visits[..i], day) == n
  {
    hide DayIndex;
    var init := visits[..|visits| - 1];
    if n < CountDay(init, day) {
      NthOfDay(init, day, n);
      var i :| 0 <= i < |init| && DayIndex(init[i].createdAt) == day && CountDay(init[..i], day) == n;
      assert init[..i] == visits[..i] && init[i] == visits[i];
    }
  }

  lemma {:induction false} CountGrows(visits: seq<Visit>, i: nat, day: nat)
    requires i <= |visits|
    ensures CountDay(visits[..i], day) <= CountDay(visits, day)
    ensures i < |visits| && DayIndex(visits[i].createdAt) == day ==> CountDay(visits[..i], day) < CountDay(visits, day)
  {
    hide DayIndex;
    if i == |visits| {
      assert visits[..i] == visits;
    } else {
      var init := visits[..|visits| - 1];
      CountGrows(init, i, day);
      assert init[..i] == visits[..i];
    }
  }

  lemma NumberedHas(visits: seq<Visit>, i: nat, now: Instant, n: nat)
    requires i < |visits| && NumberedAt(visits, i)
    ensures visits[i].number == NumberFor(DayIndex(now), n + 1) <==>
      DayIndex(visits[i].createdAt) == DayIndex(now) && CountDay(visits[..i], DayIndex(now)) == n
    ensures visits[i].number == NumberFor(DayIndex(now), n + 1) ==> n < CountDay(visits, DayIndex(now))
  {
    hide NumberFor, DayIndex, CountDay;
    var day := DayIndex(visits[i].createdAt);
    CountGrows(visits, i, day);
    if visits[i].number == NumberFor(DayIndex(now), n + 1) {
      NumbersDiffer(visits[i].createdAt, now, CountDay(visits[..i], day) + 1, n + 1);
    }
  }

  lemma NumberedOne(visits: seq<Visit>, i: nat)
    requires Numbered(visits) && i < |visits|
    ensures NumberedAt(visits, i)
  {}

  predicate Taken(visits: seq<Visit>, number: string) {
    exists i :: 0 <= i < |visits| && visits[i].number == number
  }

  /** A number is taken exactly when the day has come that far. */
  lemma NumberTaken(visits: seq<Visit>, now: Instant, n: nat)
    requires Numbered(visits)
    ensures Taken(visits, NumberFor(DayIndex(now), n + 1)) <==> n < CountDay(visits, DayIndex(now))
  {
    hide NumberFor, DayIndex, Numbered, CountDay;
    if n < CountDay(visits, DayIndex(now)) {
      NthOfDay(visits, DayIndex(now), n);
      var i :| 0 <= i < |visits| && DayIndex(visits[i].createdAt) == DayIndex(now)
        && CountDay(visits[..i], DayIndex(now)) == n;
      NumberedOne(visits, i);
      NumberedHas(visits, i, now, n);
    }
    if Taken(visits, NumberFor(DayIndex(now), n + 1)) {
      var i :| 0 <= i < |visits| && visits[i].number == NumberFor(DayIndex(now), n + 1);
      NumberedOne(visits, i);
      NumberedHas(visits, i, now, n);
    }
  }

  /** In a numbered register the numbers of a day are exactly 1 to n. */
  lemma DayIsOneToN(visits: seq<Visit>, now: Instant, k: nat)
    requires Numbered(visits) && k >= 1
    ensures Taken(visits, NumberFor(DayIndex(now), k)) <==> k <= CountDay(visits, DayIndex(now))
  {
    NumberTaken(visits, now, k - 1);
  }

  /** No number is given twice, on whatever days. */
  lemma NumbersDistinct(visits: seq<Visit>, i: nat, j: nat)
    requires Numbered(visits) && i < j < |visits|
    ensures visits[i].number != visits[j].number
  {
    hide NumberFor, DayIndex, CountDay;
    assert NumberedAt(visits, i) && NumberedAt(visits, j);
    if visits[i].number == visits[j].number {
      assert visits[..j][..i] == visits[..i];
      CountGrows(visits[..j], i, DayIndex(visits[i].createdAt));
      var d, e := DayIndex(visits[i].createdAt), DayIndex(visits[j].createdAt);
      NumbersDiffer(visits[i].createdAt, visits[j].createdAt, CountDay(visits[..i], d) + 1,
        CountDay(visits[..j], e) + 1);
    }
  }

  // ----- Check-ins side by side -----

  /** An open check-in holds the lock of its raw plate; it creates only after it looked for an active transaction. */
  datatype Attempt = Attempt(typed: string, number: string, at: Instant, checked: bool)

  datatype Desk = Desk(visits: seq<Visit>, open: map<nat, Attempt>)

  datatype Event =
    | Begin(call: nat, typed: string, now: Instant)
    | Check(call: nat)
    | Create(call: nat, now: Instant)
    | Abandon(call: nat)
    | Leave(visit: nat)
    | ReopenVisit(visit: nat)

  predicate Blocks(v: Visit, typed: string) {
    v.active && (v.plate == NormalizePlateNumber(typed) || v.plate == GetRawPlateNumber(typed) || v.plate == typed)
  }

  predicate Blocked(visits: seq<Visit>, typed: string) {
    exists i :: 0 <= i < |visits| && Blocks(visits[i], typed)
  }

  predicate Locked(open: map<nat, Attempt>, raw: string) {
    exists c :: c in open && GetRawPlateNumber(open[c].typed) == raw
  }

  function Step(d: Desk, e: Event): Desk {
    match e
    case Begin(call, typed, now) =>
      if call in d.open || Locked(d.open, GetRawPlateNumber(typed)) then d
      else d.(open := d.open[call := Attempt(typed, GenerateTransactionNumber(d.visits, now), now, false)])
    case Check(call) =>
      if call !in d.open then d
      else if Blocked(d.visits, d.open[call].typed) then d.(open := d.open - {call})
      else d.(open := d.open[call := d.open[call].(checked := true)])
    case Create(call, now) =>
      if call !in d.open || !d.open[call].checked then d
      else
        var a := d.open[call];
        if Taken(d.visits, a.number) then d.(open := d.open - {call})
        else Desk(d.visits + [Visit(a.number, NormalizePlateNumber(a.typed), now, true)], d.open - {call})
    case Abandon(call) => d.(open := d.open - {call})
    case Leave(i) => if i < |d.visits| then d.(visits := d.visits[i := d.visits[i].(active := false)]) else d
    case ReopenVisit(i) => if i < |d.visits| then d.(visits := d.visits[i := d.visits[i].(active := true)]) else d
  }

  function Run(events: seq<Event>): Desk {
    if events == [] then Desk([], map[]) else Step(Run(events[..|events| - 1]), events[|events| - 1])
  }

  /** The event creates a transaction: its attempt looked for an active one, and its number is not taken. */
  predicate Creates(d: Desk, e: Event) {
    e.Create? && e.call in d.open && d.open[e.call].checked && !Taken(d.visits, d.open[e.call].number)
  }

  /** What is created is created on the plant day its number was made for. */
  predicate OnItsDay(d: Desk, e: Event) {
    Creates(d, e) ==> DayIndex(e.now) == DayIndex(d.open[e.call].at)
  }

  ghost predicate Punctual(events: seq<Event>) {
    forall i :: 0 <= i < |events| ==> OnItsDay(Run(events[..i]), events[i])
  }

  /** A finished check-in blocks nobody: what left is not active, and an abandoned call holds no lock. */
  lemma LeavingFrees(d: Desk, i: nat, call: nat)
    requires i < |d.visits|
    ensures var after := Step(d, Leave(i)); |after.visits| == |d.visits| && !after.visits[i].active
    ensures forall j :: 0 <= j < |d.visits| && j != i ==> Step(d, Leave(i)).visits[j] == d.visits[j]
    ensures call !in Step(d, Abandon(call)).open && Step(d, Abandon(call)).visits == d.visits
  {}

  /** An active transaction stored under the raw form, or under the very string typed, blocks as well. */
  lemma OtherFormsBlock(visits: seq<Visit>, i: nat, typed: string)
    requires i < |visits| && visits[i].active
    requires visits[i].plate == typed || visits[i].plate == Skeleton(typed)
    ensures Blocked(visits, typed)
  {
    hide GetRawPlateNumber, NormalizePlateNumber, Skeleton;
    RawIsSkeleton(typed);
    assert Blocks(visits[i], typed);
  }

  // ----- Numbering -----

  /** Every open number was once the next of its day. */
  ghost predicate NumberDue(visits: seq<Visit>, day: nat, number: string) {
    exists n: nat :: 1 <= n <= CountDay(visits, day) + 1 && number == NumberFor(day, n)
  }

  ghost predicate NumbersDue(d: Desk) {
    forall c :: c in d.open ==> NumberDue(d.visits, DayIndex(d.open[c].at), d.open[c].number)
  }

  lemma AppendNumbered(visits: seq<Visit>, v: Visit)
    ensures Numbered(visits + [v]) <==>
      Numbered(visits) && v.number == NumberFor(DayIndex(v.createdAt), CountDay(visits, DayIndex(v.createdAt)) + 1)
  {
    hide NumberFor, DayIndex, CountDay;
    var after := visits + [v];
    assert after[..|visits|] == visits;
    forall i | 0 <= i < |visits| ensures NumberedAt(after, i) <==> NumberedAt(visits, i) {
      assert after[..i] == visits[..i];
    }
    if Numbered(after) {
      assert NumberedAt(after, |visits|);
      forall i | 0 <= i < |visits| ensures NumberedAt(visits, i) {
        assert NumberedAt(after, i);
      }
    }
  }

  lemma {:induction false} SameCounts(a: seq<Visit>, b: seq<Visit>, day: nat)
    requires |a| == |b| && forall i :: 0 <= i < |a| ==> a[i].createdAt == b[i].createdAt
    ensures CountDay(a, day) == CountDay(b, day)
  {
    hide DayIndex;
    if a != [] {
      SameCounts(a[..|a| - 1], b[..|b| - 1], day);
    }
  }

  lemma ActiveNumbered(visits: seq<Visit>, k: nat, active: bool)
    requires k < |visits|
    ensures Numbered(visits[k := visits[k].(active := active)]) <==> Numbered(visits)
    ensures forall day :: CountDay(visits[k := visits[k].(active := active)], day) == CountDay(visits, day)
  {
    hide NumberFor, DayIndex, CountDay;
    var after := visits[k := visits[k].(active := active)];
    forall day ensures CountDay(after, day) == CountDay(visits, day) {
      SameCounts(after, visits, day);
    }
    forall i | 0 <= i < |after| ensures NumberedAt(after, i) <==> NumberedAt(visits, i) {
      SameCounts(after[..i], visits[..i], DayIndex(after[i].createdAt));
    }
  }

  lemma StillDue(visits: seq<Visit>, v: Visit, day: nat, number: string)
    requires NumberDue(visits, day, number)
    ensures NumberDue(visits + [v], day, number)
  {
    hide NumberFor, DayIndex;
    assert (visits + [v])[..|visits|] == visits;
    var n: nat :| 1 <= n <= CountDay(visits, day) + 1 && number == NumberFor(day, n);
    assert n <= CountDay(visits + [v], day) + 1;
  }

  lemma StepKeepsDue(d: Desk, e: Event)
    requires NumbersDue(d)
    ensures NumbersDue(Step(d, e))
  {
    hide NumberFor, DayIndex, GenerateTransactionNumber, CountDay, Blocked, Locked, Taken, Numbered,
         NormalizePlateNumber;
    match e
    case Begin(call, typed, now) =>
      GeneratedNumber(d.visits, now);
      assert NumberDue(d.visits, DayIndex(now), GenerateTransactionNumber(d.visits, now));
    case Create(call, now) =>
      if Creates(d, e) {
        var v := Visit(d.open[call].number, NormalizePlateNumber(d.open[call].typed), now, true);
        forall c | c in d.open ensures NumberDue(d.visits + [v], DayIndex(d.open[c].at), d.open[c].number) {
          StillDue(d.visits, v, DayIndex(d.open[c].at), d.open[c].number);
        }
      }
    case Leave(i) =>
      if i < |d.visits| {
        ActiveNumbered(d.visits, i, false);
        assert forall day, number :: NumberDue(d.visits, day, number) ==> NumberDue(Step(d, e).visits, day, number);
      }
    case ReopenVisit(i) =>
      if i < |d.visits| {
        ActiveNumbered(d.visits, i, true);
        assert forall day, number :: NumberDue(d.visits, day, number) ==> NumberDue(Step(d, e).visits, day, number);
      }
    case _ =>
  }

  /** A creation keeps the numbering exactly when it falls on the day of its number. */
  lemma CreateNumbered(d: Desk, call: nat, now: Instant)
    requires NumbersDue(d) && Creates(d, Create(call, now))
    ensures Numbered(Step(d, Create(call, now)).visits) <==> Numbered(d.visits) && OnItsDay(d, Create(call, now))
  {
    hide NumberFor, DayIndex, GenerateTransactionNumber, Numbered, CountDay, Taken, NormalizePlateNumber;
    var a := d.open[call];
    assert NumberDue(d.visits, DayIndex(a.at), a.number);
    var n: nat :| 1 <= n <= CountDay(d.visits, DayIndex(a.at)) + 1 && a.number == NumberFor(DayIndex(a.at), n);
    AppendNumbered(d.visits, Visit(a.number, NormalizePlateNumber(a.typed), now, true));
    if Numbered(d.visits) {
      NumberTaken(d.visits, a.at, n - 1);
      if a.number == NumberFor(DayIndex(now), CountDay(d.visits, DayIndex(now)) + 1) {
        NumbersDiffer(a.at, now, n, CountDay(d.visits, DayIndex(now)) + 1);
      }
    }
  }

  lemma StepNumbered(d: Desk, e: Event)
    requires NumbersDue(d)
    ensures Numbered(Step(d, e).visits) <==> Numbered(d.visits) && OnItsDay(d, e)
  {
    hide NumberFor, DayIndex, GenerateTransactionNumber, CountDay, Numbered, Blocked, Locked, Taken, NumbersDue;
    match e
    case Create(call, now) =>
      if Creates(d, e) {
        CreateNumbered(d, call, now);
      }
    case Leave(i) =>
      if i < |d.visits| {
        ActiveNumbered(d.visits, i, false);
      }
    case ReopenVisit(i) =>
      if i < |d.visits| {
        ActiveNumbered(d.visits, i, true);
      }
    case _ =>
  }

  lemma {:induction false} RunDue(events: seq<Event>)
    ensures NumbersDue(Run(events))
  {
    hide Step, DayIndex;
    if events != [] {
      RunDue(events[..|events| - 1]);
      StepKeepsDue(Run(events[..|events| - 1]), events[|events| - 1]);
    }
  }

  lemma PunctualSnoc(events: seq<Event>)
    requires events != []
    ensures var init := events[..|events| - 1];
      Punctual(events) <==> Punctual(init) && OnItsDay(Run(init), events[|events| - 1])
  {
    hide OnItsDay, Run;
    var init := events[..|events| - 1];
    forall i | 0 <= i < |init| ensures OnItsDay(Run(init[..i]), init[i]) == OnItsDay(Run(events[..i]), events[i]) {
      assert init[..i] == events[..i];
    }
    assert OnItsDay(Run(events[..|events| - 1]), events[|events| - 1]) == OnItsDay(Run(init), events[|events| - 1]);
    if Punctual(events) {
      forall i | 0 <= i < |init| ensures OnItsDay(Run(init[..i]), init[i]) {
        assert OnItsDay(Run(events[..i]), events[i]);
      }
    }
  }

  /**
   * In every interleaving of check-ins the numbers of each day are 1 to n in the order of creation if and only if
   * everything created was created on the plant day its number was made for.
   */
  lemma {:induction false} RunNumbered(events: seq<Event>)
    ensures Numbered(Run(events).visits) <==> Punctual(events)
  {
    hide Step, OnItsDay, Punctual, Numbered, NumbersDue;
    if events == [] {
      NothingNumbered();
    } else {
      var init := events[..|events| - 1];
      RunNumbered(init);
      RunDue(init);
      StepNumbered(Run(init), events[|events| - 1]);
      PunctualSnoc(events);
    }
  }

  lemma NothingNumbered()
    ensures Numbered([]) && Punctual([])
  {}

  // ----- One active transaction a plate -----

  ghost predicate OneActiveEach(visits: seq<Visit>) {
    forall i, j :: 0 <= i < j < |visits| && visits[i].active && visits[j].active ==> visits[i].plate != visits[j].plate
  }

  ghost predicate NoneActive(visits: seq<Visit>, plate: string) {
    forall i :: 0 <= i < |visits| && visits[i].active ==> visits[i].plate != plate
  }

  /** An attempt that can still create found its plate free, and it is; attempts of one raw plate exclude each other. */
  ghost predicate PlatesHold(d: Desk) {
    && OneActiveEach(d.visits)
    && (forall c :: c in d.open && CanCreate(d, c) ==> NoneActive(d.visits, NormalizePlateNumber(d.open[c].typed)))
    && (forall b, c :: b in d.open && c in d.open && b != c ==>
        GetRawPlateNumber(d.open[b].typed) != GetRawPlateNumber(d.open[c].typed))
  }

  predicate CanCreate(d: Desk, call: nat)
    requires call in d.open
  {
    d.open[call].checked && !Taken(d.visits, d.open[call].number)
  }

  /** Nobody else has the plate of visit i: no other active visit, no attempt about to create one. */
  ghost predicate PlateFree(d: Desk, i: nat)
    requires i < |d.visits|
  {
    && (forall j :: 0 <= j < |d.visits| && j != i && d.visits[j].active ==> d.visits[j].plate != d.visits[i].plate)
    && (forall c :: c in d.open && CanCreate(d, c) ==> NormalizePlateNumber(d.open[c].typed) != d.visits[i].plate)
  }

  ghost predicate ReopensFree(d: Desk, e: Event) {
    e.ReopenVisit? && e.visit < |d.visits| ==> PlateFree(d, e.visit)
  }

  /** Exactly when a reopening keeps one active visit a plate, there and then. */
  lemma ReopenKeepsOneEach(visits: seq<Visit>, i: nat)
    requires OneActiveEach(visits) && i < |visits|
    ensures OneActiveEach(visits[i := visits[i].(active := true)]) <==>
      forall j :: 0 <= j < |visits| && j != i && visits[j].active ==> visits[j].plate != visits[i].plate
  {
    var after := visits[i := visits[i].(active := true)];
    if OneActiveEach(after) {
      forall j | 0 <= j < |visits| && j != i && visits[j].active ensures visits[j].plate != visits[i].plate {
        assert after[if i < j then i else j].active && after[if i < j then j else i].active;
      }
    }
  }

  lemma TakenStays(visits: seq<Visit>, v: Visit, number: string)
    requires Taken(visits, number)
    ensures Taken(visits + [v], number)
  {
    var i :| 0 <= i < |visits| && visits[i].number == number;
    assert (visits + [v])[i].number == number;
  }

  lemma ActiveTaken(visits: seq<Visit>, k: nat, active: bool, number: string)
    requires k < |visits|
    ensures Taken(visits[k := visits[k].(active := active)], number) <==> Taken(visits, number)
  {
    var after := visits[k := visits[k].(active := active)];
    if Taken(visits, number) {
      var i :| 0 <= i < |visits| && visits[i].number == number;
      assert after[i].number == number;
    }
    if Taken(after, number) {
      var i :| 0 <= i < |after| && after[i].number == number;
      assert visits[i].number == number;
    }
  }

  lemma CreateKeepsPlates(d: Desk, e: Event)
    requires PlatesHold(d) && Creates(d, e)
    ensures PlatesHold(Step(d, e))
  {
    hide GetRawPlateNumber, NormalizePlateNumber, GenerateTransactionNumber, Taken;
    var a := d.open[e.call];
    var v := Visit(a.number, NormalizePlateNumber(a.typed), e.now, true);
    var after := Step(d, e);
    assert after.visits == d.visits + [v] && CanCreate(d, e.call);
    forall c | c in after.open && CanCreate(after, c)
      ensures NoneActive(after.visits, NormalizePlateNumber(after.open[c].typed))
    {
      if Taken(d.visits, d.open[c].number) {
        TakenStays(d.visits, v, d.open[c].number);
      }
      assert CanCreate(d, c);
      if NormalizePlateNumber(d.open[c].typed) == NormalizePlateNumber(a.typed) {
        RawOfCanonical(d.open[c].typed, a.typed);
      }
    }
  }

  lemma StepKeepsPlates(d: Desk, e: Event)
    requires PlatesHold(d) && ReopensFree(d, e)
    ensures PlatesHold(Step(d, e))
  {
    hide GetRawPlateNumber, NormalizePlateNumber, GenerateTransactionNumber, Taken;
    match e
    case Create(_, _) =>
      if Creates(d, e) {
        CreateKeepsPlates(d, e);
      }
    case Leave(i) =>
      if i < |d.visits| {
        forall number ensures Taken(Step(d, e).visits, number) == Taken(d.visits, number) {
          ActiveTaken(d.visits, i, false, number);
        }
      }
    case ReopenVisit(i) =>
      if i < |d.visits| {
        ReopenKeepsOneEach(d.visits, i);
        forall number ensures Taken(Step(d, e).visits, number) == Taken(d.visits, number) {
          ActiveTaken(d.visits, i, true, number);
        }
      }
    case _ =>
  }

  /**
   * In every run in which each reopening finds its plate free, every stored plate has at most one transaction that is
   * not terminal.
   */
  lemma {:induction false} RunKeepsPlates(events: seq<Event>)
    requires forall i :: 0 <= i < |events| ==> ReopensFree(Run(events[..i]), events[i])
    ensures PlatesHold(Run(events))
  {
    hide Step, ReopensFree, PlatesHold;
    if events == [] {
      NoPlates();
    } else {
      var init := events[..|events| - 1];
      forall i | 0 <= i < |init| ensures ReopensFree(Run(init[..i]), init[i]) {
        assert init[..i] == events[..i] && ReopensFree(Run(events[..i]), events[i]);
      }
      RunKeepsPlates(init);
      assert ReopensFree(Run(events[..|events| - 1]), events[|events| - 1]);
      StepKeepsPlates(Run(init), events[|events| - 1]);
    }
  }

  lemma NoPlates()
    ensures PlatesHold(Desk([], map[]))
  {}

  // ----- However a plate is typed -----

  /** What was typed for each visit, in the order of creation. */
  function Typings(events: seq<Event>): seq<string> {
    if events == [] then []
    else
      var init, e := events[..|events| - 1], events[|events| - 1];
      if Creates(Run(init), e) then Typings(init) + [Run(init).open[e.call].typed] else Typings(init)
  }

  /** Every visit stores the normalized form of what was typed for it. */
  lemma {:induction false} StoredAsTyped(events: seq<Event>)
    ensures |Typings(events)| == |Run(events).visits|
    ensures forall i :: 0 <= i < |Typings(events)| ==>
      Run(events).visits[i].plate == NormalizePlateNumber(Typings(events)[i])
  {
    hide NormalizePlateNumber, GetRawPlateNumber, GenerateTransactionNumber, Taken, Blocked, Locked;
    if events != [] {
      StoredAsTyped(events[..|events| - 1]);
    }
  }

  /**
   * In such a run a truck has at most one transaction that is not terminal, however its plate was typed: two active
   * visits never have typings that spell one plate.
   */
  lemma RunKeepsTrucks(events: seq<Event>, i: nat, j: nat, p: Parts)
    requires forall k :: 0 <= k < |events| ==> ReopensFree(Run(events[..k]), events[k])
    requires i < j < |Typings(events)| && Spells(Typings(events)[i], p) && Spells(Typings(events)[j], p)
    ensures |Typings(events)| == |Run(events).visits|
    ensures !(Run(events).visits[i].active && Run(events).visits[j].active)
  {
    hide Spells, NormalizePlateNumber, Typings, Run, ReopensFree;
    StoredAsTyped(events);
    RunKeepsPlates(events);
    SpelledNormal(Typings(events)[i], p);
    SpelledNormal(Typings(events)[j], p);
  }

  /** A truck inside blocks a second check-in under every spelling of its plate. */
  lemma SpellingsBlock(visits: seq<Visit>, i: nat, inside: string, typed: string, p: Parts)
    requires i < |visits| && visits[i].active && visits[i].plate == NormalizePlateNumber(inside)
    requires Spells(inside, p) && Spells(typed, p)
    ensures Blocked(visits, typed)
  {
    hide Spells, NormalizePlateNumber, GetRawPlateNumber;
    SpelledNormal(inside, p);
    SpelledNormal(typed, p);
    assert Blocks(visits[i], typed);
  }

  /** The events that may follow, from any state. */
  function Continue(d: Desk, later: seq<Event>): Desk {
    if later == [] then d else Step(Continue(d, later[..|later| - 1]), later[|later| - 1])
  }

  predicate NoReopening(later: seq<Event>) {
    forall i :: 0 <= i < |later| ==> !later[i].ReopenVisit?
  }

  lemma {:induction false} ContinueKeepsPlates(d: Desk, later: seq<Event>)
    requires PlatesHold(d) && NoReopening(later)
    ensures PlatesHold(Continue(d, later))
  {
    hide Step, PlatesHold;
    if later != [] {
      ContinueKeepsPlates(d, later[..|later| - 1]);
      StepKeepsPlates(Continue(d, later[..|later| - 1]), later[|later| - 1]);
    }
  }

  ghost predicate OneEachFrom(d: Desk, later: seq<Event>) {
    OneActiveEach(Continue(d, later).visits)
  }

  /** The test is exact: a reopening is harmless, whatever calls follow, if and only if it finds its plate free. */
  lemma ReopenHarmlessIff(d: Desk, i: nat)
    requires PlatesHold(d) && i < |d.visits|
    ensures (forall later :: NoReopening(later) ==> OneEachFrom(Step(d, ReopenVisit(i)), later)) <==> PlateFree(d, i)
  {
    hide NormalizePlateNumber, GetRawPlateNumber, Taken;
    var reopened := Step(d, ReopenVisit(i));
    if PlateFree(d, i) {
      StepKeepsPlates(d, ReopenVisit(i));
      forall later | NoReopening(later) ensures OneEachFrom(reopened, later) {
        ContinueKeepsPlates(reopened, later);
      }
    }
    if forall later :: NoReopening(later) ==> OneEachFrom(reopened, later) {
      assert OneEachFrom(reopened, []);
      ReopenKeepsOneEach(d.visits, i);
      forall c | c in d.open && CanCreate(d, c) ensures NormalizePlateNumber(d.open[c].typed) != d.visits[i].plate {
        AttemptCreates(d, i, c);
      }
    }
  }

  lemma AttemptCreates(d: Desk, i: nat, call: nat)
    requires i < |d.visits| && call in d.open && CanCreate(d, call)
    requires forall later :: NoReopening(later) ==> OneEachFrom(Step(d, ReopenVisit(i)), later)
    ensures NormalizePlateNumber(d.open[call].typed) != d.visits[i].plate
  {
    hide NormalizePlateNumber, GetRawPlateNumber, Taken;
    var reopened := Step(d, ReopenVisit(i));
    ActiveTaken(d.visits, i, true, d.open[call].number);
    var later := [Create(call, 0)];
    assert later[..0] == [] && Continue(reopened, []) == reopened;
    assert OneEachFrom(reopened, later);
    var after := Continue(reopened, later).visits;
    assert after == reopened.visits + [Visit(d.open[call].number, NormalizePlateNumber(d.open[call].typed), 0, true)];
    assert after[i].active && after[|d.visits|].active;
  }

  lemma RunSnoc(events: seq<Event>, e: Event)
    ensures Run(events + [e]) == Step(Run(events), e)
  {
    assert (events + [e])[..|events|] == events;
  }

  lemma FirstVisit(typed: string, now: Instant, later: Instant)
    ensures var run := Run([Begin(0, typed, now), Check(0), Create(0, later)]);
      run == Desk([Visit(NumberFor(DayIndex(now), 1), NormalizePlateNumber(typed), later, true)], map[])
  {
    hide GetRawPlateNumber, NormalizePlateNumber, NumberFor, DayIndex, GenerateTransactionNumber;
    GeneratedNumber([], now);
    RunSnoc([], Begin(0, typed, now));
    RunSnoc([Begin(0, typed, now)], Check(0));
    RunSnoc([Begin(0, typed, now), Check(0)], Create(0, later));
    assert [] + [Begin(0, typed, now)] == [Begin(0, typed, now)];
    assert [Begin(0, typed, now)] + [Check(0)] == [Begin(0, typed, now), Check(0)];
    assert [Begin(0, typed, now), Check(0)] + [Create(0, later)] == [Begin(0, typed, now), Check(0), Create(0, later)];
    assert Run([]) == Desk([], map[]);
  }

  /** A number made before midnight and used after it leaves the new day without its first number. */
  lemma MidnightBreaksNumbering(typed: string)
    ensures !Numbered(Run([Begin(0, typed, 0), Check(0), Create(0, DAY_MS)]).visits)
  {
    hide NormalizePlateNumber, NumberFor;
    FirstVisit(typed, 0, DAY_MS);
    var visits := Run([Begin(0, typed, 0), Check(0), Create(0, DAY_MS)]).visits;
    assert visits[..0] == [];
    if NumberedAt(visits, 0) {
      NumbersDiffer(0, DAY_MS, 1, 1);
    }
  }

  /**
   * Reopening does not look at the plate: a finished transaction reopened after its plate came back makes two active.
   */
  lemma ReopenDoublesThePlate(d: Desk, i: nat, typed: string, now: Instant)
    requires Numbered(d.visits) && d.open == map[] && !Blocked(d.visits, typed)
    requires i < |d.visits| && d.visits[i].plate == NormalizePlateNumber(typed)
    ensures var after :=
      Step(Step(Step(Step(d, Begin(0, typed, now)), Check(0)), Create(0, now)), ReopenVisit(i)).visits;
      |after| == |d.visits| + 1 && after[i].active && after[|d.visits|].active
        && after[i].plate == after[|d.visits|].plate
  {
    hide GetRawPlateNumber, NormalizePlateNumber, NumberFor, GenerateTransactionNumber, Blocked, Taken, DayIndex,
         CountDay;
    var begun := Step(d, Begin(0, typed, now));
    GeneratedNumber(d.visits, now);
    NumberTaken(d.visits, now, CountDay(d.visits, DayIndex(now)));
    var checked := Step(begun, Check(0));
    assert Step(checked, Create(0, now)).visits == d.visits
      + [Visit(begun.open[0].number, NormalizePlateNumber(typed), now, true)];
  }

  // ----- The retry loop -----

  datatype Outcome = CheckedIn | Conflict | Busy

  predicate Contended(others: seq<Visit>, now: Instant) {
    CountDay(others, DayIndex(now)) > 0
  }

  /**
   * One attempt: the clock when its number is made and when its row is created, and the visits of others created
   * between the count and the plate check, and between the plate check and the insert.
   */
  datatype Round = Round(made: Instant, early: seq<Visit>, late: seq<Visit>, created: Instant)

  function Met(visits: seq<Visit>, a: Round): seq<Visit> {
    visits + (a.early + a.late)
  }

  function Created(visits: seq<Visit>, a: Round, typed: string): Visit {
    var day := DayIndex(a.made);
    Visit(NumberFor(day, CountDay(visits, day) + 1), NormalizePlateNumber(typed), a.created, true)
  }

  /** The attempt that creates the row, if one does. */
  function Landing(visits: seq<Visit>, rounds: seq<Round>, typed: string): Option<Round>
    decreases |rounds|
  {
    if rounds == [] || Blocked(visits + rounds[0].early, typed) then None
    else if Contended(rounds[0].early + rounds[0].late, rounds[0].made) then
      Landing(Met(visits, rounds[0]), rounds[1..], typed)
    else Some(rounds[0])
  }

  /** What the attempts come to. */
  function Attempts(visits: seq<Visit>, rounds: seq<Round>, typed: string): (Outcome, seq<Visit>)
    decreases |rounds|
  {
    if rounds == [] then (Busy, visits)
    else if Blocked(visits + rounds[0].early, typed) then (Conflict, visits + rounds[0].early)
    else
      var met := Met(visits, rounds[0]);
      if Contended(rounds[0].early + rounds[0].late, rounds[0].made) then Attempts(met, rounds[1..], typed)
      else (CheckedIn, met + [Created(met, rounds[0], typed)])
  }

  ghost predicate AllNumbered(visits: seq<Visit>, rounds: seq<Round>)
    decreases |rounds|
  {
    && Numbered(visits)
    && (rounds != [] ==>
          Numbered(visits + rounds[0].early) && AllNumbered(Met(visits, rounds[0]), rounds[1..]))
  }

  lemma {:induction false} CountJoin(a: seq<Visit>, b: seq<Visit>, day: nat)
    ensures CountDay(a + b, day) == CountDay(a, day) + CountDay(b, day)
  {
    hide DayIndex;
    if b == [] {
      assert a + b == a;
    } else {
      assert (a + b)[..|a + b| - 1] == a + b[..|b| - 1];
      CountJoin(a, b[..|b| - 1], day);
    }
  }

  lemma ContendedCount(visits: seq<Visit>, others: seq<Visit>, now: Instant)
    ensures Contended(others, now) <==> CountDay(visits, DayIndex(now)) < CountDay(visits + others, DayIndex(now))
    ensures !Contended(others, now) ==> CountDay(visits, DayIndex(now)) == CountDay(visits + others, DayIndex(now))
  {
    CountJoin(visits, others, DayIndex(now));
  }

  /** The number counted before the others came is taken after them exactly when one of them is of the day. */
  lemma OneAttempt(visits: seq<Visit>, others: seq<Visit>, now: Instant)
    requires Numbered(visits + others)
    ensures Taken(visits + others, GenerateTransactionNumber(visits, now)) <==> Contended(others, now)
    ensures !Contended(others, now) ==>
      GenerateTransactionNumber(visits, now) == NumberFor(DayIndex(now), CountDay(visits + others, DayIndex(now)) + 1)
  {
    hide NumberFor, DayIndex, GenerateTransactionNumber, Contended, Taken, Numbered, CountDay;
    GeneratedNumber(visits, now);
    NumberTaken(visits + others, now, CountDay(visits, DayIndex(now)));
    ContendedCount(visits, others, now);
  }

  lemma MetBy(visits: seq<Visit>, a: Round, number: string)
    requires Numbered(Met(visits, a)) && number == GenerateTransactionNumber(visits, a.made)
    ensures visits + a.early + a.late == Met(visits, a)
    ensures Taken(Met(visits, a), number) <==> Contended(a.early + a.late, a.made)
    ensures !Contended(a.early + a.late, a.made) ==>
      number == NumberFor(DayIndex(a.made), CountDay(Met(visits, a), DayIndex(a.made)) + 1)
  {
    hide NumberFor, DayIndex, GenerateTransactionNumber, Contended, Taken, Numbered, CountDay;
    OneAttempt(visits, a.early + a.late, a.made);
  }

  /** The day's next number keeps the numbering exactly when the row is created on the day it was made for. */
  lemma CreatedNumbered(visits: seq<Visit>, a: Round, typed: string)
    requires Numbered(visits)
    ensures Numbered(visits + [Created(visits, a, typed)]) <==> DayIndex(a.created) == DayIndex(a.made)
  {
    hide NormalizePlateNumber, NumberFor, DayIndex, Numbered, CountDay;
    AppendNumbered(visits, Created(visits, a, typed));
    if Numbered(visits + [Created(visits, a, typed)]) {
      NumbersDiffer(a.made, a.created, CountDay(visits, DayIndex(a.made)) + 1,
        CountDay(visits, DayIndex(a.created)) + 1);
    }
  }

  class Gate {
    var visits: seq<Visit>

    constructor ()
      ensures visits == []
    {
      visits := [];
    }

    /**
     * The call gives up exactly when in each of its three attempts another check-in of the day came between; else it
     * creates the next number of the day it read, whoever came before. The numbering then holds exactly when the row
     * was created on that same day.
     */
    method CheckIn(typed: string, rounds: seq<Round>) returns (outcome: Outcome)
      requires |rounds| == 3 && AllNumbered(visits, rounds)
      modifies this
      ensures (outcome, visits) == Attempts(old(visits), rounds, typed)
      ensures outcome == CheckedIn <==> Landing(old(visits), rounds, typed).Some?
      ensures Numbered(visits) <==>
        (outcome == CheckedIn ==>
           var landing := Landing(old(visits), rounds, typed).value;
           DayIndex(landing.created) == DayIndex(landing.made))
    {
      hide NormalizePlateNumber, NumberFor, DayIndex, GenerateTransactionNumber, Blocked, Contended, Taken, Numbered,
           CountDay, Met;
      var retries := 3;
      while retries > 0
        invariant 0 <= retries <= 3
        invariant AllNumbered(visits, rounds[3 - retries..])
        invariant Attempts(old(visits), rounds, typed) == Attempts(visits, rounds[3 - retries..], typed)
        invariant Landing(old(visits), rounds, typed) == Landing(visits, rounds[3 - retries..], typed)
      {
        var round := rounds[3 - retries];
        assert rounds[3 - retries..][1..] == rounds[4 - retries..];
        var counted := visits;
        var transactionNumber := GenerateTransactionNumber(counted, round.made);
        visits := visits + round.early;
        if Blocked(visits, typed) {
          return Conflict;
        }
        visits := visits + round.late;
        MetBy(counted, round, transactionNumber);
        if !Taken(visits, transactionNumber) {
          var visit := Visit(transactionNumber, NormalizePlateNumber(typed), round.created, true);
          CreatedNumbered(visits, round, typed);
          visits := visits + [visit];
          return CheckedIn;
        }
        retries := retries - 1;
      }
      return Busy;
    }
  }
}
