/** The canonical form of a vehicle plate, and the raw form its lock is taken on. */
module Plates {
  import opened Prelude

  predicate Letter(c: char) {
    'A' <= c <= 'Z'
  }

  predicate Number(c: char) {
    '0' <= c <= '9'
  }

  predicate Kept(c: char) {
    Letter(c) || Number(c)
  }

  /** Upper case, everything but letters and digits blanked. */
  function Blanked(s: string): (t: string)
    ensures |t| == |s|
    ensures forall i :: 0 <= i < |s| ==> t[i] == if Kept(UpperChar(s[i])) then UpperChar(s[i]) else ' '
  {
    seq(|s|, i requires 0 <= i < |s| => if Kept(UpperChar(s[i])) then UpperChar(s[i]) else ' ')
  }

  /** Every run of blanks becomes one blank. */
  function Collapsed(s: string): string {
    if s == "" then ""
    else
      var before, c := Collapsed(s[..|s| - 1]), s[|s| - 1];
      if IsSpace(c) then (if before != "" && before[|before| - 1] == ' ' then before else before + " ")
      else before + [c]
  }

  function Cleaned(s: string): string {
    Collapsed(Trim(Blanked(s)))
  }

  /** How many leading characters satisfy a class. */
  function Span(s: string, cls: char -> bool): (n: nat)
    ensures n <= |s|
    ensures forall i :: 0 <= i < n ==> cls(s[i])
    ensures n < |s| ==> !cls(s[n])
  {
    if s != "" && cls(s[0]) then 1 + Span(s[1..], cls) else 0
  }

  datatype Parts = Parts(region: string, digits: string, series: string)

  function SkipBlank(s: string): string {
    if s != "" && s[0] == ' ' then s[1..] else s
  }

  /**
   * The plate pattern on a cleaned string: one or two letters, one to four digits, one to three letters, each part
   * optionally parted by a blank. Neighbouring parts share no character, so the greedy reading is the only one.
   */
  function MatchPlate(s: string): Option<Parts> {
    var i := Span(s, Letter);
    var afterRegion := SkipBlank(s[i..]);
    var j := Span(afterRegion, Number);
    var series := SkipBlank(afterRegion[j..]);
    var k := Span(series, Letter);
    if 1 <= i <= 2 && 1 <= j <= 4 && 1 <= k <= 3 && k == |series| then Some(Parts(s[..i], afterRegion[..j], series))
    else None
  }

  function Spaced(p: Parts): string {
    p.region + " " + p.digits + " " + p.series
  }

  function NormalizePlateNumber(plate: string): string {
    var cleaned := Cleaned(plate);
    match MatchPlate(cleaned)
    case Some(p) => Spaced(p)
    case None => cleaned
  }

  function Unspaced(s: string): string {
    if s == "" then ""
    else Unspaced(s[..|s| - 1]) + if IsSpace(s[|s| - 1]) then "" else [s[|s| - 1]]
  }

  function GetRawPlateNumber(plate: string): string {
    Unspaced(NormalizePlateNumber(plate))
  }

  // ----- Canonical strings -----

  /** Letters and digits, with single blanks inside only. */
  ghost predicate Canonical(s: string) {
    && (forall i :: 0 <= i < |s| ==> Kept(s[i]) || s[i] == ' ')
    && (s != "" ==> s[0] != ' ' && s[|s| - 1] != ' ')
    && (forall i :: 0 <= i < |s| - 1 ==> s[i] != ' ' || s[i + 1] != ' ')
  }

  ghost predicate Blank(s: string) {
    forall i :: 0 <= i < |s| ==> Kept(s[i]) || s[i] == ' '
  }

  lemma {:induction false} CollapsedShape(s: string)
    requires Blank(s)
    ensures Blank(Collapsed(s))
    ensures forall i :: 0 <= i < |Collapsed(s)| - 1 ==> Collapsed(s)[i] != ' ' || Collapsed(s)[i + 1] != ' '
    ensures s != "" ==> Collapsed(s) != "" && Collapsed(s)[0] == s[0] && Collapsed(s)[|Collapsed(s)| - 1] == s[|s| - 1]
    ensures s == "" ==> Collapsed(s) == ""
  {
    if s != "" {
      CollapsedShape(s[..|s| - 1]);
    }
  }

  lemma {:induction false} TrimBlank(s: string)
    requires Blank(s)
    ensures Blank(TrimStart(s)) && Blank(TrimEnd(s))
    decreases |s|
  {
    if s != "" {
      TrimBlank(s[1..]);
      TrimBlank(s[..|s| - 1]);
    }
  }

  lemma CleanedCanonical(s: string)
    ensures Canonical(Cleaned(s))
  {
    TrimBlank(Blanked(s));
    TrimBlank(TrimStart(Blanked(s)));
    CollapsedShape(Trim(Blanked(s)));
  }

  lemma {:induction false} CollapsedFixpoint(s: string)
    requires Blank(s) && forall i :: 0 <= i < |s| - 1 ==> s[i] != ' ' || s[i + 1] != ' '
    ensures Collapsed(s) == s
  {
    if s != "" {
      CollapsedFixpoint(s[..|s| - 1]);
    }
  }

  lemma CanonicalFixpoint(s: string)
    requires Canonical(s)
    ensures Cleaned(s) == s
  {
    assert Blanked(s) == s;
    TrimFixpoint(s);
    CollapsedFixpoint(s);
  }

  // ----- The normalized form -----

  lemma SpanOf(a: string, b: string, cls: char -> bool)
    requires forall i :: 0 <= i < |a| ==> cls(a[i])
    requires b == "" || !cls(b[0])
    ensures Span(a + b, cls) == |a|
  {
    assert forall i :: 0 <= i < |a| ==> (a + b)[i] == a[i];
    if b != "" {
      assert (a + b)[|a|] == b[0];
    }
  }

  ghost predicate Proper(p: Parts) {
    && 1 <= |p.region| <= 2 && 1 <= |p.digits| <= 4 && 1 <= |p.series| <= 3
    && (forall i :: 0 <= i < |p.region| ==> Letter(p.region[i]))
    && (forall i :: 0 <= i < |p.digits| ==> Number(p.digits[i]))
    && (forall i :: 0 <= i < |p.series| ==> Letter(p.series[i]))
  }

  lemma MatchedProper(s: string)
    requires MatchPlate(s).Some?
    ensures Proper(MatchPlate(s).value)
  {}

  lemma SpacedCanonical(p: Parts)
    requires Proper(p)
    ensures Canonical(Spaced(p))
  {}

  lemma TakePart(a: string, rest: string, cls: char -> bool)
    requires forall i :: 0 <= i < |a| ==> cls(a[i])
    requires rest == "" || !cls(rest[0])
    ensures Span(a + rest, cls) == |a| && (a + rest)[..|a|] == a && (a + rest)[|a|..] == rest
  {
    SpanOf(a, rest, cls);
  }

  lemma SpacedMatches(p: Parts)
    requires Proper(p)
    ensures MatchPlate(Spaced(p)) == Some(p)
  {
    hide MatchPlate, Proper;
    MatchSplit(p, " ", " ");
    assert Spaced(p) == p.region + (" " + (p.digits + (" " + p.series)));
  }

  /** Normalizing is idempotent, on every string. */
  lemma NormalizeIdempotent(plate: string)
    ensures NormalizePlateNumber(NormalizePlateNumber(plate)) == NormalizePlateNumber(plate)
    ensures Canonical(NormalizePlateNumber(plate))
  {
    var cleaned := Cleaned(plate);
    CleanedCanonical(plate);
    if MatchPlate(cleaned).Some? {
      MatchedProper(cleaned);
      SpacedMatches(MatchPlate(cleaned).value);
      SpacedCanonical(MatchPlate(cleaned).value);
    }
    CanonicalFixpoint(NormalizePlateNumber(plate));
  }

  // ----- Words -----

  /** The maximal runs of letters and digits, upper case. */
  function Words(s: string): (w: seq<string>)
    ensures forall i :: 0 <= i < |w| ==> w[i] != ""
    ensures s != "" && Kept(UpperChar(s[|s| - 1])) ==> w != []
  {
    if s == "" then []
    else
      var before, c := Words(s[..|s| - 1]), UpperChar(s[|s| - 1]);
      if !Kept(c) then before
      else if |s| > 1 && Kept(UpperChar(s[|s| - 2])) then before[|before| - 1 := before[|before| - 1] + [c]]
      else before + [[c]]
  }

  function Spread(words: seq<string>): string {
    if words == [] then ""
    else if |words| == 1 then words[0]
    else Spread(words[..|words| - 1]) + " " + words[|words| - 1]
  }

  lemma SpreadGrow(words: seq<string>, c: char)
    requires words != []
    ensures Spread(words[|words| - 1 := words[|words| - 1] + [c]]) == Spread(words) + [c]
  {
    var last := |words| - 1;
    assert words[last := words[last] + [c]][..last] == words[..last];
  }

  lemma SpreadNew(words: seq<string>, c: char)
    ensures Spread(words + [[c]]) == if words == [] then [c] else Spread(words) + " " + [c]
  {
    assert (words + [[c]])[..|words|] == words;
  }

  lemma {:induction false} StartSnoc(s: string, c: char)
    ensures TrimStart(s + [c]) == if TrimStart(s) == "" && IsSpace(c) then "" else TrimStart(s) + [c]
  {
    if s == "" {
      assert s + [c] == [c] && [c][1..] == "";
    } else if IsSpace(s[0]) {
      assert (s + [c])[1..] == s[1..] + [c];
      StartSnoc(s[1..], c);
    }
  }

  lemma EndSnoc(s: string, c: char)
    ensures TrimEnd(s + [c]) == if IsSpace(c) then TrimEnd(s) else s + [c]
  {
    assert (s + [c])[..|s|] == s;
  }

  lemma CollapsedSnoc(s: string, c: char)
    ensures Collapsed(s + [c]) ==
      if !IsSpace(c) then Collapsed(s) + [c]
      else if Collapsed(s) != "" && Collapsed(s)[|Collapsed(s)| - 1] == ' ' then Collapsed(s)
      else Collapsed(s) + " "
  {
    assert (s + [c])[..|s|] == s;
  }

  predicate EndsBlank(s: string) {
    s != "" && s[|s| - 1] == ' '
  }

  /** Scanning from the left: the words so far, and a blank if one was just read after them. */
  ghost predicate Scanned(front: string, words: seq<string>, blank: bool) {
    && (front == "" <==> words == [])
    && (EndsBlank(front) <==> front != "" && blank)
    && Collapsed(front) == Spread(words) + (if EndsBlank(front) then " " else "")
    && Collapsed(TrimEnd(front)) == Spread(words)
    && !EndsBlank(Spread(words)) && (words != [] ==> Spread(words) != "")
  }

  lemma ScanBlank(front: string, words: seq<string>, blank: bool)
    requires Scanned(front, words, blank)
    ensures Scanned(if front == "" then "" else front + [' '], words, true)
  {
    hide Spread;
    EndSnoc(front, ' ');
    CollapsedSnoc(front, ' ');
  }

  lemma ScanNew(front: string, words: seq<string>, blank: bool, c: char)
    requires Scanned(front, words, blank) && Kept(c) && (front == "" || blank)
    ensures Scanned(front + [c], words + [[c]], false)
  {
    EndSnoc(front, c);
    CollapsedSnoc(front, c);
    SpreadNew(words, c);
    hide Collapsed, TrimEnd;
  }

  lemma ScanGrow(front: string, words: seq<string>, c: char)
    requires Scanned(front, words, false) && Kept(c) && words != []
    ensures Scanned(front + [c], words[|words| - 1 := words[|words| - 1] + [c]], false)
  {
    EndSnoc(front, c);
    CollapsedSnoc(front, c);
    SpreadGrow(words, c);
    hide Spread, Collapsed, TrimEnd;
  }

  lemma BlankedSnoc(s: string)
    requires s != ""
    ensures var c := UpperChar(s[|s| - 1]); Blanked(s) == Blanked(s[..|s| - 1]) + [if Kept(c) then c else ' ']
  {}

  predicate BlankLast(s: string) {
    s != "" && !Kept(UpperChar(s[|s| - 1]))
  }

  lemma {:induction false} CollapsedWords(s: string)
    ensures Scanned(TrimStart(Blanked(s)), Words(s), BlankLast(s))
  {
    if s != "" {
      hide Scanned, TrimStart, TrimEnd, Collapsed, Spread, Blanked;
      var init, c := s[..|s| - 1], UpperChar(s[|s| - 1]);
      var front := TrimStart(Blanked(init));
      CollapsedWords(init);
      ScannedEnd(front, Words(init), BlankLast(init));
      BlankedSnoc(s);
      if Kept(c) {
        StartSnoc(Blanked(init), c);
        if |s| > 1 && Kept(UpperChar(s[|s| - 2])) {
          ScanGrow(front, Words(init), c);
        } else {
          ScanNew(front, Words(init), BlankLast(init), c);
        }
      } else {
        StartSnoc(Blanked(init), ' ');
        ScanBlank(front, Words(init), BlankLast(init));
      }
    } else {
      NothingScanned();
    }
  }

  lemma NothingScanned()
    ensures Scanned(TrimStart(Blanked("")), [], false)
  {}

  lemma ScannedEnd(front: string, words: seq<string>, blank: bool)
    requires Scanned(front, words, blank)
    ensures front == "" <==> words == []
    ensures Collapsed(TrimEnd(front)) == Spread(words)
  {}

  /** Cleaning leaves the words typed, one blank between each two. */
  lemma CleanedWords(s: string)
    ensures Cleaned(s) == Spread(Words(s))
  {
    CollapsedWords(s);
    ScannedEnd(TrimStart(Blanked(s)), Words(s), BlankLast(s));
  }

  // ----- Spellings of a plate -----

  /** A string whose words are the parts of a plate, run together or not. */
  ghost predicate Spells(typed: string, p: Parts) {
    && Proper(p)
    && (var c := Spread(Words(typed));
        || c == p.region + p.digits + p.series
        || c == p.region + " " + p.digits + p.series
        || c == p.region + p.digits + " " + p.series
        || c == p.region + " " + p.digits + " " + p.series)
  }

  lemma MatchSplit(p: Parts, gap: string, other: string)
    requires Proper(p) && (gap == "" || gap == " ") && (other == "" || other == " ")
    ensures MatchPlate(p.region + (gap + (p.digits + (other + p.series)))) == Some(p)
  {
    var afterDigits := other + p.series;
    var afterRegion := p.digits + afterDigits;
    TakePart(p.region, gap + afterRegion, Letter);
    TakePart(p.digits, afterDigits, Number);
    TakePart(p.series, "", Letter);
    assert p.series + "" == p.series;
    SkipGap(gap, afterRegion);
    SkipGap(other, p.series);
    hide Span, SkipBlank;
  }

  lemma SkipGap(gap: string, s: string)
    requires (gap == "" || gap == " ") && s != "" && s[0] != ' '
    ensures SkipBlank(gap + s) == s
  {}

  lemma MatchIsSpelling(c: string)
    requires MatchPlate(c).Some?
    ensures var p := MatchPlate(c).value;
      || c == p.region + p.digits + p.series
      || c == p.region + " " + p.digits + p.series
      || c == p.region + p.digits + " " + p.series
      || c == p.region + " " + p.digits + " " + p.series
  {
    hide Span, SkipBlank;
    var i := Span(c, Letter);
    var afterRegion := SkipBlank(c[i..]);
    var j := Span(afterRegion, Number);
    SkipSplit(c[i..]);
    SkipSplit(afterRegion[j..]);
    assert c == c[..i] + c[i..] && afterRegion == afterRegion[..j] + afterRegion[j..];
    Reassociate(MatchPlate(c).value, c, c[i..], afterRegion, afterRegion[j..]);
  }

  lemma Reassociate(p: Parts, c: string, rest: string, afterRegion: string, tail: string)
    requires c == p.region + rest && (rest == afterRegion || rest == " " + afterRegion)
    requires afterRegion == p.digits + tail && (tail == p.series || tail == " " + p.series)
    ensures
      || c == p.region + p.digits + p.series
      || c == p.region + " " + p.digits + p.series
      || c == p.region + p.digits + " " + p.series
      || c == p.region + " " + p.digits + " " + p.series
  {
    if rest == afterRegion {
      if tail == p.series {
        assert c == p.region + p.digits + p.series;
      } else {
        assert c == p.region + p.digits + " " + p.series;
      }
    } else {
      if tail == p.series {
        assert c == p.region + " " + p.digits + p.series;
      } else {
        assert c == p.region + " " + p.digits + " " + p.series;
      }
    }
  }

  lemma SkipSplit(s: string)
    ensures s == SkipBlank(s) || s == " " + SkipBlank(s)
  {}

  /** Every spelling of a plate has one stored form, its three parts with a blank between. */
  lemma SpelledNormal(typed: string, p: Parts)
    requires Spells(typed, p)
    ensures NormalizePlateNumber(typed) == p.region + " " + p.digits + " " + p.series
  {
    hide MatchPlate, Proper, Cleaned;
    var c := Cleaned(typed);
    CleanedWords(typed);
    MatchSplit(p, "", "");
    MatchSplit(p, " ", "");
    MatchSplit(p, "", " ");
    MatchSplit(p, " ", " ");
    assert p.region + ("" + (p.digits + ("" + p.series))) == p.region + p.digits + p.series;
    assert p.region + (" " + (p.digits + ("" + p.series))) == p.region + " " + p.digits + p.series;
    assert p.region + ("" + (p.digits + (" " + p.series))) == p.region + p.digits + " " + p.series;
    assert p.region + (" " + (p.digits + (" " + p.series))) == p.region + " " + p.digits + " " + p.series;
  }

  /** Everything else is stored as the words typed, a blank between each two. */
  lemma UnspelledNormal(typed: string)
    requires forall p :: !Spells(typed, p)
    ensures NormalizePlateNumber(typed) == Spread(Words(typed))
  {
    CleanedWords(typed);
    if MatchPlate(Cleaned(typed)).Some? {
      MatchedProper(Cleaned(typed));
      MatchIsSpelling(Cleaned(typed));
      assert Spells(typed, MatchPlate(Cleaned(typed)).value);
    }
  }

  // ----- The raw form -----

  /** The letters and digits of a plate as typed, upper case: what two spellings of a plate share. */
  function Skeleton(s: string): string {
    if s == "" then ""
    else
      var c := UpperChar(s[|s| - 1]);
      Skeleton(s[..|s| - 1]) + if Kept(c) then [c] else ""
  }

  lemma {:induction false} UnspacedJoin(a: string, b: string)
    ensures Unspaced(a + b) == Unspaced(a) + Unspaced(b)
  {
    if b == "" {
      assert a + b == a;
    } else {
      UnspacedJoin(a, b[..|b| - 1]);
      assert (a + b)[..|a + b| - 1] == a + b[..|b| - 1];
    }
  }

  lemma {:induction false} UnspacedCollapsed(s: string)
    requires Blank(s)
    ensures Unspaced(Collapsed(s)) == Unspaced(s)
  {
    if s != "" {
      var init := s[..|s| - 1];
      UnspacedCollapsed(init);
      UnspacedJoin(Collapsed(init), [s[|s| - 1]]);
      assert Unspaced([s[|s| - 1]]) == if IsSpace(s[|s| - 1]) then "" else [s[|s| - 1]] by {
        assert [s[|s| - 1]][..0] == "";
      }
    }
  }

  lemma {:induction false} UnspacedTrimmed(s: string)
    ensures Unspaced(TrimStart(s)) == Unspaced(s) && Unspaced(TrimEnd(s)) == Unspaced(s)
    decreases |s|
  {
    if s != "" {
      UnspacedTrimmed(s[1..]);
      UnspacedTrimmed(s[..|s| - 1]);
      assert s == [s[0]] + s[1..];
      UnspacedJoin([s[0]], s[1..]);
      assert [s[0]][..0] == "";
    }
  }

  lemma {:induction false} UnspacedBlanked(s: string)
    ensures Unspaced(Blanked(s)) == Skeleton(s)
  {
    if s != "" {
      UnspacedBlanked(s[..|s| - 1]);
      assert Blanked(s)[..|s| - 1] == Blanked(s[..|s| - 1]);
    }
  }

  lemma SpacedUnspaced(p: Parts)
    ensures Unspaced(Spaced(p)) == Unspaced(p.region) + Unspaced(p.digits) + Unspaced(p.series)
  {
    BlankUnspaced();
    hide Unspaced;
    UnspacedJoin(p.region + " " + p.digits + " ", p.series);
    UnspacedJoin(p.region + " " + p.digits, " ");
    UnspacedJoin(p.region + " ", p.digits);
    UnspacedJoin(p.region, " ");
  }

  lemma BlankUnspaced()
    ensures Unspaced(" ") == ""
  {
    assert " "[..0] == "";
  }

  lemma MatchedUnspaced(s: string)
    requires MatchPlate(s).Some?
    ensures Unspaced(s) == Unspaced(Spaced(MatchPlate(s).value))
  {
    hide Span, Unspaced, Spaced, SkipBlank;
    var p := MatchPlate(s).value;
    var i := Span(s, Letter);
    var afterRegion := SkipBlank(s[i..]);
    var j := Span(afterRegion, Number);
    SkipUnspaced(s[i..]);
    SkipUnspaced(afterRegion[j..]);
    UnspacedSplit(s, i);
    UnspacedSplit(afterRegion, j);
    SpacedUnspaced(p);
  }

  lemma UnspacedSplit(s: string, i: nat)
    requires i <= |s|
    ensures Unspaced(s) == Unspaced(s[..i]) + Unspaced(s[i..])
  {
    assert s == s[..i] + s[i..];
    UnspacedJoin(s[..i], s[i..]);
  }

  lemma SkipUnspaced(s: string)
    ensures Unspaced(SkipBlank(s)) == Unspaced(s)
  {
    if s != "" && s[0] == ' ' {
      assert s == " " + s[1..];
      UnspacedJoin(" ", s[1..]);
      assert " "[..0] == "";
    }
  }

  /** The raw form is the letters and digits typed, so every spelling of a plate takes the same lock. */
  lemma RawIsSkeleton(plate: string)
    ensures GetRawPlateNumber(plate) == Skeleton(plate)
  {
    var blanked := Blanked(plate);
    UnspacedBlanked(plate);
    UnspacedTrimmed(blanked);
    UnspacedTrimmed(TrimStart(blanked));
    TrimBlank(blanked);
    TrimBlank(TrimStart(blanked));
    UnspacedCollapsed(Trim(blanked));
    if MatchPlate(Cleaned(plate)).Some? {
      MatchedUnspaced(Cleaned(plate));
    }
  }

  /** The raw form depends on the canonical form only: it is the raw form of the canonical form. */
  lemma RawOfCanonical(plate: string, other: string)
    requires NormalizePlateNumber(plate) == NormalizePlateNumber(other)
    ensures GetRawPlateNumber(plate) == GetRawPlateNumber(other)
    ensures GetRawPlateNumber(NormalizePlateNumber(plate)) == GetRawPlateNumber(plate)
  {
    NormalizeIdempotent(plate);
  }
}
