/**
 * The plant's day: a window of UTC instants and the date key printed on transaction numbers. Times are milliseconds
 * from 1970.
 */
module PlantDay {

  const DAY_MS := 86_400_000
  const WIB_OFFSET_MS := 25_200_000

  // ----- Decimal digits -----

  function Decimal(n: nat): (s: string)
    ensures |s| >= 1
  {
    if n < 10 then [Digit(n)] else Decimal(n / 10) + [Digit(n % 10)]
  }

  function Digit(n: nat): char
    requires n < 10
  {
    '0' + n as char
  }

  function PadStart(s: string, width: nat): (r: string)
    ensures |r| == if |s| < width then width else |s|
    decreases width - |s|
  {
    if |s| < width then PadStart("0" + s, width) else s
  }

  /** Reads a decimal number back, leading zeros and all. */
  function Value(s: string): int {
    if s == "" then 0 else Value(s[..|s| - 1]) * 10 + (s[|s| - 1] as int - '0' as int)
  }

  lemma {:induction false} ValueOfDecimal(n: nat)
    ensures Value(Decimal(n)) == n
  {
    if n >= 10 {
      ValueOfDecimal(n / 10);
      assert Decimal(n)[..|Decimal(n)| - 1] == Decimal(n / 10);
    } else {
      assert Decimal(n)[..0] == "";
    }
  }

  lemma {:induction false} ZeroInFront(s: string)
    ensures Value("0" + s) == Value(s)
  {
    if s != "" {
      ZeroInFront(s[..|s| - 1]);
      assert ("0" + s)[..|s|] == "0" + s[..|s| - 1];
    } else {
      assert ("0" + s)[..0] == "";
    }
  }

  lemma {:induction false} ValueOfPadded(s: string, width: nat)
    ensures Value(PadStart(s, width)) == Value(s)
    decreases width - |s|
  {
    if |s| < width {
      ZeroInFront(s);
      ValueOfPadded("0" + s, width);
    }
  }

  /** Padding loses no number, whatever its width. */
  lemma PaddedDistinct(a: nat, b: nat, width: nat)
    requires PadStart(Decimal(a), width) == PadStart(Decimal(b), width)
    ensures a == b
  {
    ValueOfPadded(Decimal(a), width);
    ValueOfPadded(Decimal(b), width);
    ValueOfDecimal(a);
    ValueOfDecimal(b);
  }

  lemma {:induction false} DecimalShort(n: nat, width: nat, bound: nat)
    requires 1 <= width && bound == Power10(width) && n < bound
    ensures |Decimal(n)| <= width
    decreases width
  {
    if n >= 10 {
      DecimalShort(n / 10, width - 1, Power10(width - 1));
    }
  }

  function Power10(k: nat): nat {
    if k == 0 then 1 else 10 * Power10(k - 1)
  }

  // ----- The Gregorian calendar -----

  datatype Civil = Civil(year: nat, month: nat, day: nat)

  predicate Leap(y: nat) {
    y % 4 == 0 && (y % 100 != 0 || y % 400 == 0)
  }

  function MonthLength(y: nat, m: nat): nat {
    if m == 2 then (if Leap(y) then 29 else 28)
    else if m == 4 || m == 6 || m == 9 || m == 11 then 30
    else 31
  }

  function DaysBeforeMonth(y: nat, m: nat): nat {
    if m <= 1 then 0 else DaysBeforeMonth(y, m - 1) + MonthLength(y, m - 1)
  }

  function YearLength(y: nat): nat {
    DaysBeforeMonth(y, 13)
  }

  function DaysBeforeYear(y: nat): nat {
    if y <= 1970 then 0 else DaysBeforeYear(y - 1) + YearLength(y - 1)
  }

  /** Parsing a date: the number of its day. */
  function DayOf(c: Civil): int {
    DaysBeforeYear(c.year) + DaysBeforeMonth(c.year, c.month) + c.day - 1
  }

  /** Formatting an instant's day: year and month are counted off. */
  function CivilFrom(y: nat, m: nat, rest: nat): (c: Civil)
    requires y >= 1970 && 1 <= m <= 12
    ensures 1 <= c.month <= 12 && 1 <= c.day <= MonthLength(c.year, c.month) && c.year >= y
    ensures DayOf(c) == DaysBeforeYear(y) + DaysBeforeMonth(y, m) + rest
    decreases rest
  {
    if rest < MonthLength(y, m) then Civil(y, m, rest + 1)
    else if m < 12 then CivilFrom(y, m + 1, rest - MonthLength(y, m))
    else
      assert DaysBeforeYear(y + 1) == DaysBeforeYear(y) + DaysBeforeMonth(y, 12) + MonthLength(y, 12);
      CivilFrom(y + 1, 1, rest - MonthLength(y, 12))
  }

  function CivilOf(day: nat): (c: Civil)
    ensures DayOf(c) == day
    ensures 1 <= c.month <= 12 && 1 <= c.day <= 31
  {
    CivilFrom(1970, 1, day)
  }

  /** The ISO date without its dashes. */
  function DateKey(c: Civil): string {
    PadStart(Decimal(c.year), 4) + PadStart(Decimal(c.month), 2) + PadStart(Decimal(c.day), 2)
  }

  /** The last day of the year 9999; an ISO date keeps four digits of the year. */
  const LAST_DAY := 2_932_896

  lemma AtLeast(a: int, k: int)
    requires a >= 1 && k > 0
    ensures a * k >= k
  {}

  lemma DivMod(n: int, k: int, q: int, r: int)
    requires k > 0 && n == q * k + r && 0 <= r < k
    ensures n / k == q && n % k == r
  {
    var p, s := n / k, n % k;
    assert (q - p) * k == s - r && (p - q) * k == r - s;
    if q > p {
      AtLeast(q - p, k);
    }
    if q < p {
      AtLeast(p - q, k);
    }
  }

  lemma LeapParts(y: nat)
    ensures y % 100 == 0 ==> y % 4 == 0
    ensures y % 400 == 0 ==> y % 100 == 0
  {
    DivMod(y, 4, 25 * (y / 100) + (y % 100) / 4, (y % 100) % 4);
    DivMod(y, 100, 4 * (y / 400) + (y % 400) / 100, (y % 400) % 100);
  }

  lemma NextDiv(n: nat, k: nat, shift: nat)
    requires k > 0
    ensures (n + 1) / k == n / k + (if (n + 1 + shift * k) % k == 0 then 1 else 0)
  {
    var q, r := n / k, n % k;
    if r == k - 1 {
      DivMod(n + 1, k, q + 1, 0);
      DivMod(n + 1 + shift * k, k, q + 1 + shift, 0);
    } else {
      DivMod(n + 1, k, q, r + 1);
      DivMod(n + 1 + shift * k, k, q + shift, r + 1);
    }
  }

  lemma LeapStep(y: nat)
    requires y > 1970
    ensures (y - 1969) / 4 == (y - 1970) / 4 + if (y - 1) % 4 == 0 then 1 else 0
    ensures (y - 1901) / 100 == (y - 1902) / 100 + if (y - 1) % 100 == 0 then 1 else 0
    ensures (y - 1601) / 400 == (y - 1602) / 400 + if (y - 1) % 400 == 0 then 1 else 0
  {
    NextDiv(y - 1970, 4, 492);
    NextDiv(y - 1902, 100, 19);
    NextDiv(y - 1602, 400, 4);
  }

  /** The Gregorian leap rule summed up. */
  lemma {:induction false} DaysBeforeYearIs(y: nat)
    requires y >= 1970
    ensures DaysBeforeYear(y) == 365 * (y - 1970) + (y - 1969) / 4 - (y - 1901) / 100 + (y - 1601) / 400
  {
    if y > 1970 {
      DaysBeforeYearIs(y - 1);
      YearLengthIs(y - 1);
      LeapStep(y);
      LeapParts(y - 1);
      hide YearLength;
    }
  }

  lemma YearLengthIs(y: nat)
    ensures YearLength(y) == if Leap(y) then 366 else 365
  {
    assert DaysBeforeMonth(y, 2) == 31;
    assert DaysBeforeMonth(y, 3) == 59 + if Leap(y) then 1 else 0;
    assert DaysBeforeMonth(y, 5) == DaysBeforeMonth(y, 3) + 61;
    assert DaysBeforeMonth(y, 7) == DaysBeforeMonth(y, 5) + 61;
    assert DaysBeforeMonth(y, 9) == DaysBeforeMonth(y, 7) + 62;
    assert DaysBeforeMonth(y, 11) == DaysBeforeMonth(y, 9) + 61;
    assert DaysBeforeMonth(y, 13) == DaysBeforeMonth(y, 11) + 61;
  }

  lemma YearHasFourDigits(day: nat)
    requires day <= LAST_DAY
    ensures CivilOf(day).year <= 9999
  {
    hide CivilFrom;
    var c := CivilOf(day);
    DaysBeforeYearIs(c.year);
  }

  lemma KeyParts(c: Civil)
    requires c.year <= 9999 && c.month <= 12 && c.day <= 31
    ensures |PadStart(Decimal(c.year), 4)| == 4 && |PadStart(Decimal(c.month), 2)| == 2
      && |PadStart(Decimal(c.day), 2)| == 2
  {
    DecimalShort(c.year, 4, Power10(4));
    DecimalShort(c.month, 2, Power10(2));
    DecimalShort(c.day, 2, Power10(2));
  }

  /** A date key has eight characters and belongs to one day only. */
  lemma KeyOfOneDay(a: nat, b: nat)
    requires a <= LAST_DAY && b <= LAST_DAY
    ensures |DateKey(CivilOf(a))| == 8
    ensures DateKey(CivilOf(a)) == DateKey(CivilOf(b)) ==> a == b
  {
    hide CivilOf, Decimal, PadStart;
    var x, y := CivilOf(a), CivilOf(b);
    YearHasFourDigits(a);
    YearHasFourDigits(b);
    KeyParts(x);
    KeyParts(y);
    if DateKey(x) == DateKey(y) {
      assert DateKey(x)[..4] == PadStart(Decimal(x.year), 4) && DateKey(y)[..4] == PadStart(Decimal(y.year), 4);
      assert DateKey(x)[4..6] == PadStart(Decimal(x.month), 2) && DateKey(y)[4..6] == PadStart(Decimal(y.month), 2);
      assert DateKey(x)[6..] == PadStart(Decimal(x.day), 2) && DateKey(y)[6..] == PadStart(Decimal(y.day), 2);
      PaddedDistinct(x.year, y.year, 4);
      PaddedDistinct(x.month, y.month, 2);
      PaddedDistinct(x.day, y.day, 2);
      assert x == y;
    }
  }

  /** The days before a month by the usual formula, counting from March. */
  lemma MonthsSummedUp(y: nat, m: nat)
    requires 3 <= m <= 13
    ensures DaysBeforeMonth(y, m) == 59 + (153 * (m - 3) + 2) / 5 + if Leap(y) then 1 else 0
    ensures DaysBeforeMonth(y, 2) == 31 && DaysBeforeMonth(y, 1) == 0
  {
    assert DaysBeforeMonth(y, 2) == 31;
    assert DaysBeforeMonth(y, 3) == 59 + if Leap(y) then 1 else 0;
    assert DaysBeforeMonth(y, 5) == DaysBeforeMonth(y, 3) + 61 && DaysBeforeMonth(y, 4) == DaysBeforeMonth(y, 3) + 31;
    assert DaysBeforeMonth(y, 7) == DaysBeforeMonth(y, 5) + 61 && DaysBeforeMonth(y, 6) == DaysBeforeMonth(y, 5) + 31;
    assert DaysBeforeMonth(y, 9) == DaysBeforeMonth(y, 7) + 62 && DaysBeforeMonth(y, 8) == DaysBeforeMonth(y, 7) + 31;
    assert DaysBeforeMonth(y, 11) == DaysBeforeMonth(y, 9) + 61 && DaysBeforeMonth(y, 10) == DaysBeforeMonth(y, 9) + 30;
    assert DaysBeforeMonth(y, 13) == DaysBeforeMonth(y, 11) + 61
      && DaysBeforeMonth(y, 12) == DaysBeforeMonth(y, 11) + 30;
  }

  /** Year, month and day can be read back from a key, in this order. */
  lemma KeyReadsBack(day: nat)
    requires day <= LAST_DAY
    ensures var key, c := DateKey(CivilOf(day)), CivilOf(day);
      |key| == 8 && Value(key[..4]) == c.year && Value(key[4..6]) == c.month && Value(key[6..]) == c.day
  {
    hide CivilOf, Decimal, PadStart, Value;
    var c := CivilOf(day);
    YearHasFourDigits(day);
    KeyParts(c);
    assert DateKey(c)[..4] == PadStart(Decimal(c.year), 4);
    assert DateKey(c)[4..6] == PadStart(Decimal(c.month), 2);
    assert DateKey(c)[6..] == PadStart(Decimal(c.day), 2);
    ValueOfPadded(Decimal(c.year), 4);
    ValueOfPadded(Decimal(c.month), 2);
    ValueOfPadded(Decimal(c.day), 2);
    ValueOfDecimal(c.year);
    ValueOfDecimal(c.month);
    ValueOfDecimal(c.day);
  }

  // ----- The plant day of an instant -----

  datatype Window = Window(dateKey: string, start: int, end: int)

  predicate InRange(t: int) {
    0 <= t + WIB_OFFSET_MS < 253_402_300_800_000
  }

  /** Instants the plant's clock shows in the years 1970 to 9999. */
  type Instant = t: int | 0 <= t + WIB_OFFSET_MS < 253_402_300_800_000 witness 0

  /** The number of the day the plant's clock shows. */
  function DayIndex(now: Instant): (day: nat)
    ensures day <= LAST_DAY
  {
    (now + WIB_OFFSET_MS) / DAY_MS
  }

  /** Shift to local time, print the date, parse it back as midnight UTC, shift back. */
  function GetPlantDay(now: Instant): Window
  {
    var local := CivilOf(DayIndex(now));
    var start := DayOf(local) * DAY_MS - WIB_OFFSET_MS;
    Window(DateKey(local), start, start + DAY_MS)
  }

  /** A window contains its instant, and every instant it contains has the same window. */
  lemma WindowOfItsInstants(now: Instant, other: Instant)
    ensures GetPlantDay(now).start <= now < GetPlantDay(now).end
    ensures GetPlantDay(now).start <= other < GetPlantDay(now).end <==> DayIndex(other) == DayIndex(now)
    ensures GetPlantDay(now).start <= other < GetPlantDay(now).end ==> GetPlantDay(other) == GetPlantDay(now)
  {}

  /** The plant's day begins at 17:00 of the day before in UTC and lasts 24 hours. */
  lemma WindowInUtc(now: Instant)
    ensures GetPlantDay(now).start % 86_400_000 == 17 * 3_600_000
    ensures GetPlantDay(now).end == GetPlantDay(now).start + 86_400_000
    ensures GetPlantDay(now).dateKey == DateKey(CivilOf(DayIndex(now)))
    ensures DayIndex(now) == (GetPlantDay(now).start + 7 * 3_600_000) / 86_400_000
  {
    hide CivilOf, DateKey;
    var day: int := DayIndex(now);
    var start := GetPlantDay(now).start;
    assert start == day * 86_400_000 - 25_200_000;
    DivMod(start, 86_400_000, day - 1, 61_200_000);
    DivMod(start + 25_200_000, 86_400_000, day, 0);
  }

  /** Windows tile time: the end of one is the start of the next. */
  lemma WindowsTile(now: Instant)
    requires DayIndex(now) < LAST_DAY
    ensures var end := GetPlantDay(now).end;
      InRange(end) && GetPlantDay(end).start == end && DayIndex(end) == DayIndex(now) + 1
  {
    hide CivilFrom;
    var end := GetPlantDay(now).end;
    assert end + WIB_OFFSET_MS == (DayIndex(now) + 1) * DAY_MS;
  }

  /** Windows with the same key are the same window. */
  lemma KeyDeterminesWindow(now: Instant, other: Instant)
    ensures GetPlantDay(now).dateKey == GetPlantDay(other).dateKey ==> GetPlantDay(now) == GetPlantDay(other)
  {
    KeyOfOneDay(DayIndex(now), DayIndex(other));
  }
}
