/**
 * The report written as CSV in batches, and a reader by section 2 of RFC 4180 (with LF as line break) that gets it
 * back.
 */
module CsvExport {
  import opened Prelude

  /** One reported transaction; None prints as the source prints a missing or zero value. */
  datatype Trip = Trip(
    transactionNumber: string,
    plateNumber: string,
    vendorName: string,
    processType: string,
    status: string,
    gateInAt: Option<string>,
    gateOutAt: Option<string>,
    netWeight: Option<string>,
    actualWeight: Option<string>,
    riskLevels: seq<string>)

  const BATCH_SIZE := 500

  const HEADERS: seq<string> := [
    "TRX ID", "Plate Number", "Vendor", "Type", "Status", "Gate In", "Gate Out", "Net WB", "WH Scale",
    "Deviation Status"]

  function Or(o: Option<string>, other: string): string {
    if o.Some? then o.value else other
  }

  function Cells(t: Trip): (cells: seq<string>)
    ensures |cells| == |HEADERS|
  {
    [t.transactionNumber, t.plateNumber, t.vendorName, t.processType, t.status, Or(t.gateInAt, ""), Or(t.gateOutAt, ""),
     Or(t.netWeight, "0"), Or(t.actualWeight, "0"), if t.riskLevels != [] then t.riskLevels[0] else "SAFE"]
  }

  function Doubled(s: string): string {
    if s == "" then "" else Doubled(s[..|s| - 1]) + if s[|s| - 1] == '"' then "\"\"" else [s[|s| - 1]]
  }

  predicate FormulaLike(s: string) {
    s != "" && s[0] in {'=', '-', '+', '@'}
  }

  function EscapeCsv(v: string): string {
    var str := Doubled(v);
    "\"" + (if FormulaLike(str) then "'" + str else str) + "\""
  }

  function Join(parts: seq<string>): string
    requires parts != []
  {
    if |parts| == 1 then parts[0] else Join(parts[..|parts| - 1]) + "," + parts[|parts| - 1]
  }

  function Escaped(cells: seq<string>): (r: seq<string>)
    ensures |r| == |cells|
  {
    seq(|cells|, i requires 0 <= i < |cells| => EscapeCsv(cells[i]))
  }

  function Line(t: Trip): string {
    Join(Escaped(Cells(t))) + "\n"
  }

  const HEADER_LINE: string := Join(HEADERS) + "\n"

  function Lines(table: seq<Trip>): seq<string> {
    seq(|table|, i requires 0 <= i < |table| => Line(table[i]))
  }

  function Concat(chunks: seq<string>): string {
    if chunks == [] then "" else Concat(chunks[..|chunks| - 1]) + chunks[|chunks| - 1]
  }

  /** The database page a query with skip and take returns. */
  function Page(table: seq<Trip>, skip: nat, take: nat): seq<Trip> {
    if skip >= |table| then [] else if skip + take >= |table| then table[skip..] else table[skip..skip + take]
  }

  /** The generator: every row exactly once and in order, whatever the length of the table. */
  method ExportCsvStream(table: seq<Trip>) returns (yielded: seq<string>)
    ensures yielded == [HEADER_LINE] + Lines(table)
  {
    hide Line, Join;
    yielded := [HEADER_LINE];
    var skip := 0;
    while true
      invariant 0 <= skip <= |table| && skip % BATCH_SIZE == 0
      invariant yielded == [HEADER_LINE] + Lines(table[..skip])
      decreases |table| - skip
    {
      var batch := Page(table, skip, BATCH_SIZE);
      if |batch| == 0 {
        break;
      }
      for i := 0 to |batch|
        invariant yielded == [HEADER_LINE] + Lines(table[..skip + i])
      {
        assert Lines(table[..skip + i + 1]) == Lines(table[..skip + i]) + [Line(batch[i])];
        yielded := yielded + [Line(batch[i])];
      }
      if |batch| < BATCH_SIZE {
        assert table[..skip + |batch|] == table;
        return;
      }
      skip := skip + BATCH_SIZE;
    }
    assert table[..skip] == table;
  }

  method ExportCsv(table: seq<Trip>) returns (output: string)
    ensures output == TrimEnd(Concat([HEADER_LINE] + Lines(table)))
  {
    hide Line, Join, Lines;
    output := "";
    var chunks := ExportCsvStream(table);
    for i := 0 to |chunks|
      invariant output == Concat(chunks[..i])
    {
      assert chunks[..i + 1][..i] == chunks[..i];
      output := output + chunks[i];
    }
    assert chunks[..|chunks|] == chunks;
    output := TrimEnd(output);
  }

  // ----- The reader -----

  datatype Mode = FieldStart | Quoted | AfterQuote | Bare | Malformed

  datatype Reader = Reader(records: seq<seq<string>>, fields: seq<string>, field: string, mode: Mode)

  function EndField(r: Reader): Reader {
    Reader(r.records, r.fields + [r.field], "", FieldStart)
  }

  function EndRecord(r: Reader): Reader {
    Reader(r.records + [r.fields + [r.field]], [], "", FieldStart)
  }

  function ReadChar(r: Reader, c: char): Reader {
    match r.mode
    case Quoted => if c == '"' then r.(mode := AfterQuote) else r.(field := r.field + [c])
    case AfterQuote =>
      if c == '"' then r.(field := r.field + "\"", mode := Quoted)
      else if c == ',' then EndField(r)
      else if c == '\n' then EndRecord(r)
      else r.(mode := Malformed)
    case Malformed => r
    case _ =>
      if c == ',' then EndField(r)
      else if c == '\n' then EndRecord(r)
      else if c == '"' then r.(mode := if r.mode == FieldStart then Quoted else Malformed)
      else r.(field := r.field + [c], mode := Bare)
  }

  function Feed(r: Reader, text: string): Reader {
    if text == "" then r else ReadChar(Feed(r, text[..|text| - 1]), text[|text| - 1])
  }

  /** The last record may lack its line break. */
  function ReadCsv(text: string): Option<seq<seq<string>>> {
    var r := Feed(Reader([], [], "", FieldStart), text);
    match r.mode
    case Quoted => None
    case Malformed => None
    case FieldStart => Some(if r.fields == [] then r.records else EndRecord(r).records)
    case _ => Some(EndRecord(r).records)
  }

  // ----- Reading back what was written -----

  /** What the writer's guard against formulas makes of a field. */
  function Prefixed(v: string): string {
    if FormulaLike(v) then "'" + v else v
  }

  function PrefixedAll(cells: seq<string>): (r: seq<string>)
    ensures |r| == |cells|
  {
    seq(|cells|, i requires 0 <= i < |cells| => Prefixed(cells[i]))
  }

  /** The prefix confuses a formula with the same formula after an apostrophe, and nothing else. */
  lemma PrefixLoses(a: string, b: string)
    ensures Prefixed(a) == Prefixed(b) <==>
      a == b || (FormulaLike(a) && b == "'" + a) || (FormulaLike(b) && a == "'" + b)
  {
    if Prefixed(a) == Prefixed(b) && FormulaLike(a) && FormulaLike(b) {
      assert ("'" + a)[1..] == ("'" + b)[1..];
    }
  }

  lemma {:induction false} FeedJoin(r: Reader, a: string, b: string)
    ensures Feed(r, a + b) == Feed(Feed(r, a), b)
  {
    if b == "" {
      assert a + b == a;
    } else {
      FeedJoin(r, a, b[..|b| - 1]);
      assert (a + b)[..|a + b| - 1] == a + b[..|b| - 1];
    }
  }

  lemma FeedChar(r: Reader, c: char)
    ensures Feed(r, [c]) == ReadChar(r, c)
  {
    assert [c][..0] == "";
  }

  lemma {:induction false} QuotedBody(r: Reader, s: string)
    requires r.mode == Quoted
    ensures Feed(r, Doubled(s)) == r.(field := r.field + s)
  {
    if s == "" {
      assert r.field + "" == r.field;
    } else {
      var init, c := s[..|s| - 1], s[|s| - 1];
      QuotedBody(r, init);
      var before := r.(field := r.field + init);
      assert r.field + init + [c] == r.field + s;
      if c == '"' {
        FeedJoin(r, Doubled(init), "\"\"");
        FeedJoin(before, "\"", "\"");
        FeedChar(before, '"');
        FeedChar(ReadChar(before, '"'), '"');
      } else {
        FeedJoin(r, Doubled(init), [c]);
        FeedChar(before, c);
      }
    }
  }

  lemma {:induction false} DoubledStart(v: string)
    ensures (Doubled(v) == "") == (v == "")
    ensures v != "" ==> Doubled(v)[0] == v[0]
  {
    if |v| > 1 {
      DoubledStart(v[..|v| - 1]);
    }
  }

  lemma {:induction false} ApostropheDoubled(v: string)
    ensures Doubled("'" + v) == "'" + Doubled(v)
  {
    if v == "" {
      assert "'" + v == "'" && "'"[..0] == "";
    } else {
      ApostropheDoubled(v[..|v| - 1]);
      assert ("'" + v)[..|v|] == "'" + v[..|v| - 1];
    }
  }

  lemma EscapedIsDoubled(v: string)
    ensures EscapeCsv(v) == "\"" + Doubled(Prefixed(v)) + "\""
  {
    DoubledStart(v);
    ApostropheDoubled(v);
  }

  lemma FieldRead(r: Reader, v: string)
    requires r.mode == FieldStart && r.field == ""
    ensures Feed(r, EscapeCsv(v)) == r.(field := Prefixed(v), mode := AfterQuote)
  {
    EscapedIsDoubled(v);
    var open := r.(mode := Quoted);
    FeedChar(r, '"');
    FeedJoin(r, "\"" + Doubled(Prefixed(v)), "\"");
    FeedJoin(r, "\"", Doubled(Prefixed(v)));
    QuotedBody(open, Prefixed(v));
    assert "" + Prefixed(v) == Prefixed(v);
    FeedChar(open.(field := Prefixed(v)), '"');
  }

  lemma {:induction false} FieldsRead(r: Reader, cells: seq<string>)
    requires r.mode == FieldStart && r.field == "" && cells != []
    ensures var n := |cells| - 1;
      Feed(r, Join(Escaped(cells))) ==
        Reader(r.records, r.fields + PrefixedAll(cells)[..n], Prefixed(cells[n]), AfterQuote)
  {
    hide EscapeCsv, Prefixed, Feed;
    var n := |cells| - 1;
    if n == 0 {
      FieldRead(r, cells[0]);
      assert r.fields + [] == r.fields;
    } else {
      var init := cells[..n];
      FieldsRead(r, init);
      assert Escaped(cells)[..n] == Escaped(init);
      var head, last := Join(Escaped(init)), EscapeCsv(cells[n]);
      var before := Feed(r, head);
      FeedJoin(r, head + ",", last);
      FeedJoin(r, head, ",");
      FeedChar(before, ',');
      assert PrefixedAll(cells)[..n] == PrefixedAll(init)[..n - 1] + [Prefixed(init[n - 1])];
      assert EndField(before).fields == r.fields + PrefixedAll(cells)[..n];
      FieldRead(EndField(before), cells[n]);
    }
  }

  lemma RecordRead(r: Reader, cells: seq<string>)
    requires r.mode == FieldStart && r.field == "" && r.fields == [] && cells != []
    ensures Feed(r, Join(Escaped(cells)) + "\n") == r.(records := r.records + [PrefixedAll(cells)])
  {
    var n := |cells| - 1;
    FieldsRead(r, cells);
    var before := Feed(r, Join(Escaped(cells)));
    FeedJoin(r, Join(Escaped(cells)), "\n");
    FeedChar(before, '\n');
    assert [] + PrefixedAll(cells)[..n] + [Prefixed(cells[n])] == PrefixedAll(cells);
  }

  /** Text an unquoted field may hold. */
  predicate Plain(s: string) {
    forall i :: 0 <= i < |s| ==> s[i] != '"' && s[i] != ',' && s[i] != '\n'
  }

  lemma {:induction false} BareRead(r: Reader, s: string)
    requires r.mode == FieldStart && r.field == "" && s != "" && Plain(s)
    ensures Feed(r, s) == r.(field := s, mode := Bare)
  {
    hide Feed;
    if |s| == 1 {
      FeedChar(r, s[0]);
      assert s == [s[0]] && "" + [s[0]] == s;
    } else {
      var init, c := s[..|s| - 1], s[|s| - 1];
      BareRead(r, init);
      assert init + [c] == s;
      FeedJoin(r, init, [c]);
      FeedChar(r.(field := init, mode := Bare), c);
    }
  }

  lemma {:induction false} BareFieldsRead(r: Reader, parts: seq<string>)
    requires r.mode == FieldStart && r.field == "" && parts != []
    requires forall i :: 0 <= i < |parts| ==> parts[i] != "" && Plain(parts[i])
    ensures var n := |parts| - 1; Feed(r, Join(parts)) == Reader(r.records, r.fields + parts[..n], parts[n], Bare)
  {
    var n := |parts| - 1;
    if n == 0 {
      BareRead(r, parts[0]);
      assert r.fields + [] == r.fields;
    } else {
      var init := parts[..n];
      BareFieldsRead(r, init);
      var before := Feed(r, Join(init));
      FeedJoin(r, Join(init) + ",", parts[n]);
      FeedJoin(r, Join(init), ",");
      FeedChar(before, ',');
      assert EndField(before).fields == r.fields + init;
      BareRead(EndField(before), parts[n]);
    }
  }

  lemma HeaderRead(r: Reader)
    requires r == Reader([], [], "", FieldStart)
    ensures Feed(r, HEADER_LINE) == r.(records := [HEADERS])
  {
    HeadersPlain();
    BareFieldsRead(r, HEADERS);
    FeedJoin(r, Join(HEADERS), "\n");
    FeedChar(Feed(r, Join(HEADERS)), '\n');
    assert [] + HEADERS[..|HEADERS| - 1] + [HEADERS[|HEADERS| - 1]] == HEADERS;
    assert [] + [HEADERS] == [HEADERS];
  }

  lemma HeadersPlain()
    ensures forall i :: 0 <= i < |HEADERS| ==> HEADERS[i] != "" && Plain(HEADERS[i])
  {}

  function Records(table: seq<Trip>): seq<seq<string>> {
    seq(|table|, i requires 0 <= i < |table| => PrefixedAll(Cells(table[i])))
  }

  lemma {:induction false} RowsRead(r: Reader, table: seq<Trip>)
    requires r.mode == FieldStart && r.field == "" && r.fields == []
    ensures Feed(r, Concat(Lines(table))) == r.(records := r.records + Records(table))
  {
    hide Cells, Join;
    if table == [] {
      assert r.records + [] == r.records;
    } else {
      var init, t := table[..|table| - 1], table[|table| - 1];
      RowsRead(r, init);
      assert Lines(table)[..|table| - 1] == Lines(init);
      FeedJoin(r, Concat(Lines(init)), Line(t));
      RecordRead(Feed(r, Concat(Lines(init))), Cells(t));
      assert r.records + Records(init) + [PrefixedAll(Cells(t))] == r.records + Records(table);
    }
  }

  lemma {:induction false} ConcatCons(first: string, rest: seq<string>)
    ensures Concat([first] + rest) == first + Concat(rest)
  {
    if rest == [] {
      assert ([first] + rest)[..0] == [];
    } else {
      ConcatCons(first, rest[..|rest| - 1]);
      assert ([first] + rest)[..|rest|] == [first] + rest[..|rest| - 1];
    }
  }

  /** No field is written so that a spreadsheet takes it for a formula: its first character is none of the four. */
  lemma NoFormulaWritten(v: string)
    ensures var w := EscapeCsv(v);
      && |w| >= 2 && w[0] == '"' && w[|w| - 1] == '"'
      && w[1] != '=' && w[1] != '-' && w[1] != '+' && w[1] != '@'
  {
    EscapedIsDoubled(v);
    DoubledStart(Prefixed(v));
  }

  /** The heading a cell stands under. */
  lemma CellsUnderHeadings(t: Trip, i: nat)
    requires i < |HEADERS|
    ensures HEADERS[i] == "TRX ID" ==> Cells(t)[i] == t.transactionNumber
    ensures HEADERS[i] == "Plate Number" ==> Cells(t)[i] == t.plateNumber
    ensures HEADERS[i] == "Vendor" ==> Cells(t)[i] == t.vendorName
    ensures HEADERS[i] == "Type" ==> Cells(t)[i] == t.processType
    ensures HEADERS[i] == "Status" ==> Cells(t)[i] == t.status
    ensures HEADERS[i] == "Gate In" ==> Cells(t)[i] == if t.gateInAt.Some? then t.gateInAt.value else ""
    ensures HEADERS[i] == "Gate Out" ==> Cells(t)[i] == if t.gateOutAt.Some? then t.gateOutAt.value else ""
    ensures HEADERS[i] == "Net WB" ==> Cells(t)[i] == if t.netWeight.Some? then t.netWeight.value else "0"
    ensures HEADERS[i] == "WH Scale" ==> Cells(t)[i] == if t.actualWeight.Some? then t.actualWeight.value else "0"
    ensures HEADERS[i] == "Deviation Status" ==> Cells(t)[i] == if t.riskLevels != [] then t.riskLevels[0] else "SAFE"
  {
    assert |HEADERS| == 10;
    assert HEADERS[0] == "TRX ID" && HEADERS[1] == "Plate Number" && HEADERS[2] == "Vendor" && HEADERS[3] == "Type";
    assert HEADERS[4] == "Status" && HEADERS[5] == "Gate In" && HEADERS[6] == "Gate Out" && HEADERS[7] == "Net WB";
    assert HEADERS[8] == "WH Scale" && HEADERS[9] == "Deviation Status";
  }

  /** Reading the stream gives the header and every cell of every row, in order, up to the formula prefix. */
  lemma StreamRoundTrip(table: seq<Trip>)
    ensures ReadCsv(Concat([HEADER_LINE] + Lines(table))) == Some([HEADERS] + Records(table))
  {
    hide Cells, Join;
    var r := Reader([], [], "", FieldStart);
    ConcatCons(HEADER_LINE, Lines(table));
    FeedJoin(r, HEADER_LINE, Concat(Lines(table)));
    HeaderRead(r);
    RowsRead(r.(records := [HEADERS]), table);
  }

  // ----- The whole file -----

  /** The stream ends in one line break, after the end of a quoted field or of the last heading. */
  predicate BreakAtEnd(s: string) {
    |s| >= 2 && s[|s| - 1] == '\n' && s[|s| - 2] in {'"', 's'}
  }

  lemma JoinEnds(parts: seq<string>)
    requires parts != [] && parts[|parts| - 1] != ""
    ensures var s, last := Join(parts), parts[|parts| - 1]; s != "" && s[|s| - 1] == last[|last| - 1]
  {
    if |parts| > 1 {
      var head, last := Join(parts[..|parts| - 1]) + ",", parts[|parts| - 1];
      assert Join(parts) == head + last;
      assert (head + last)[|head| + |last| - 1] == last[|last| - 1];
    }
  }

  lemma HeaderEnds()
    ensures BreakAtEnd(HEADER_LINE)
  {
    JoinEnds(HEADERS);
    hide Join;
  }

  lemma LineEnds(t: Trip)
    ensures BreakAtEnd(Line(t))
  {
    JoinEnds(Escaped(Cells(t)));
    var last := EscapeCsv(Cells(t)[|HEADERS| - 1]);
    assert last[|last| - 1] == '"';
    hide Join, Cells, EscapeCsv;
  }

  lemma StreamEnds(table: seq<Trip>)
    ensures BreakAtEnd(Concat([HEADER_LINE] + Lines(table)))
  {
    hide Line, Join;
    var chunks := [HEADER_LINE] + Lines(table);
    var head, last := Concat(chunks[..|chunks| - 1]), chunks[|chunks| - 1];
    HeaderEnds();
    if table != [] {
      LineEnds(table[|table| - 1]);
    }
    assert BreakAtEnd(last) && Concat(chunks) == head + last;
    assert (head + last)[|head| + |last| - 1] == last[|last| - 1]
      && (head + last)[|head| + |last| - 2] == last[|last| - 2];
  }

  /** Trimming the whole file drops its final line break and nothing else, so it reads back the same. */
  lemma FileRoundTrip(table: seq<Trip>)
    ensures var stream := Concat([HEADER_LINE] + Lines(table));
      && stream == TrimEnd(stream) + "\n"
      && ReadCsv(TrimEnd(stream)) == ReadCsv(stream) == Some([HEADERS] + Records(table))
  {
    hide Records, Lines, Concat;
    var stream := Concat([HEADER_LINE] + Lines(table));
    StreamEnds(table);
    StreamRoundTrip(table);
    BreakUnread(stream);
  }

  lemma BreakUnread(s: string)
    requires BreakAtEnd(s) && ReadCsv(s).Some?
    ensures s == TrimEnd(s) + "\n" && ReadCsv(TrimEnd(s)) == ReadCsv(s)
  {
    var body := s[..|s| - 1];
    assert TrimEnd(body) == body;
    assert s == body + "\n";
    var before := Feed(Reader([], [], "", FieldStart), body);
    assert before.mode != FieldStart;
    assert Feed(Reader([], [], "", FieldStart), s) == ReadChar(before, '\n');
  }
}
