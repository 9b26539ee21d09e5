/**
 * The CSV export of the reading list, and a reader for comma-separated text in the
 * style of RFC 4180 (a field in double quotes may hold commas, line breaks and doubled
 * quotes) that serves as its inverse.
 */
module Csv {
  import opened Wrappers
  import opened Types
  import opened Strings

  // ---------------------------------------------------------------------------
  // Writing
  // ---------------------------------------------------------------------------

  function CountQuotes(t: string): nat {
    if t == [] then 0 else (if t[0] == '"' then 1 else 0) + CountQuotes(t[1..])
  }

  /** Every double quote is doubled. */
  function EscapeQuotes(t: string): (e: string)
    ensures |e| == |t| + CountQuotes(t)
  {
    if t == [] then []
    else (if t[0] == '"' then "\"\"" else [t[0]]) + EscapeQuotes(t[1..])
  }

  /**
   * The note cell: wrapped in double quotes with each inner quote doubled, as section 2,
   * rule 7 of RFC 4180 asks; it is two characters longer than the note plus its quotes.
   */
  function QuoteField(t: string): (q: string)
    ensures |q| == |t| + CountQuotes(t) + 2
    ensures q[0] == '"' && q[|q| - 1] == '"'
  {
    "\"" + EscapeQuotes(t) + "\""
  }

  /** The parts with `sep` between each two of them. */
  function Join(sep: char, parts: seq<string>): string {
    if parts == [] then ""
    else if |parts| == 1 then parts[0]
    else parts[0] + [sep] + Join(sep, parts[1..])
  }

  const HeaderLabels: seq<string> := ["日期时间", "部位", "收缩压(mmHg)", "舒张压(mmHg)", "心率(bpm)", "备注"]

  /**
   * One line of the export: the locale date text, the arm, the three numbers, and the
   * quoted note. `localeText` gives the locale date text of a time.
   */
  function CsvRow(r: BPRecord, localeText: Timestamp -> string): string {
    Join(',', [localeText(r.timestamp), r.arm, IntToText(r.systolic), IntToText(r.diastolic),
               IntToText(r.heartRate), QuoteField(r.note)])
  }

  function CsvRows(records: seq<BPRecord>, localeText: Timestamp -> string): (rows: seq<string>)
    ensures |rows| == |records|
    ensures forall i :: 0 <= i < |records| ==> rows[i] == CsvRow(records[i], localeText)
  {
    if records == [] then [] else [CsvRow(records[0], localeText)] + CsvRows(records[1..], localeText)
  }

  /**
   * `exportCSV`: nothing for an empty list; otherwise the header line and one line per
   * reading, in list order, joined by line feeds.
   */
  function ExportCsv(records: seq<BPRecord>, localeText: Timestamp -> string): (out: Option<string>)
    ensures out.None? <==> records == []
  {
    if |records| == 0 then None
    else Some(Join('\n', [Join(',', HeaderLabels)] + CsvRows(records, localeText)))
  }

  // ---------------------------------------------------------------------------
  // Reading
  // ---------------------------------------------------------------------------

  /**
   * Reads the inside of a quoted field (the opening quote already consumed): a doubled quote
   * is one quote, a single quote closes the field. Gives the text and what follows the
   * closing quote; nothing when the quote is never closed.
   */
  function ReadQuoted(s: string): (r: Option<(string, string)>)
    ensures r.Some? ==> |r.value.1| < |s|
  {
    if s == [] then None
    else if s[0] == '"' then
      if |s| > 1 && s[1] == '"' then
        match ReadQuoted(s[2..])
        case None => None
        case Some((t, rest)) => Some(("\"" + t, rest))
      else Some(("", s[1..]))
    else
      match ReadQuoted(s[1..])
      case None => None
      case Some((t, rest)) => Some(([s[0]] + t, rest))
  }

  /** Where an unquoted field ends: at the first comma or line feed, or at the end. */
  function PlainLength(s: string): (n: nat)
    ensures n <= |s|
    ensures forall i :: 0 <= i < n ==> s[i] != ',' && s[i] != '\n'
    ensures n < |s| ==> s[n] == ',' || s[n] == '\n'
  {
    if s == [] || s[0] == ',' || s[0] == '\n' then 0 else 1 + PlainLength(s[1..])
  }

  /** Reads one field; gives its text and the rest of the input. */
  function ReadField(s: string): (r: Option<(string, string)>)
    ensures r.Some? ==> |r.value.1| <= |s|
  {
    if s != [] && s[0] == '"' then ReadQuoted(s[1..])
    else
      var n := PlainLength(s);
      Some((s[..n], s[n..]))
  }

  /**
   * Reads the fields of one line; gives them and, when a line feed ended the line, the
   * text after it.
   */
  function ReadRecord(s: string): (r: Option<(seq<string>, Option<string>)>)
    ensures r.Some? && r.value.1.Some? ==> |r.value.1.value| < |s|
    decreases |s|
  {
    match ReadField(s)
    case None => None
    case Some((f, rest)) =>
      if rest == [] then Some(([f], None))
      else if rest[0] == ',' then
        match ReadRecord(rest[1..])
        case None => None
        case Some((fs, next)) => Some(([f] + fs, next))
      else if rest[0] == '\n' then Some(([f], Some(rest[1..])))
      else None
  }

  /** Reads every line of a text. */
  function ReadDocument(s: string): Option<seq<seq<string>>>
    decreases |s|
  {
    match ReadRecord(s)
    case None => None
    case Some((fs, None)) => Some([fs])
    case Some((fs, Some(next))) =>
      match ReadDocument(next)
      case None => None
      case Some(lines) => Some([fs] + lines)
  }

  // ---------------------------------------------------------------------------
  // Reading what was written
  // ---------------------------------------------------------------------------

  /** Text that can stand in a cell without quotes. */
  predicate PlainSafe(t: string) {
    forall i :: 0 <= i < |t| ==> t[i] != ',' && t[i] != '\n' && t[i] != '"'
  }

  /** A cell as written: as it is, or quoted. */
  datatype Cell = Plain(text: string) | Quoted(text: string)

  predicate CellSafe(c: Cell) {
    c.Quoted? || PlainSafe(c.text)
  }

  function Encode(c: Cell): string {
    match c
    case Plain(t) => t
    case Quoted(t) => QuoteField(t)
  }

  function EncodeAll(cells: seq<Cell>): (out: seq<string>)
    ensures |out| == |cells|
    ensures forall i :: 0 <= i < |cells| ==> out[i] == Encode(cells[i])
  {
    seq(|cells|, i requires 0 <= i < |cells| => Encode(cells[i]))
  }

  function TextsOf(cells: seq<Cell>): (out: seq<string>)
    ensures |out| == |cells|
    ensures forall i :: 0 <= i < |cells| ==> out[i] == cells[i].text
  {
    seq(|cells|, i requires 0 <= i < |cells| => cells[i].text)
  }

  lemma ReadQuotedClose(rest: string)
    requires rest == [] || rest[0] != '"'
    ensures ReadQuoted("\"" + rest) == Some(("", rest))
  {
    assert ("\"" + rest)[1..] == rest;
  }

  lemma ReadQuotedDoubled(tail: string, t: string, rest: string)
    requires ReadQuoted(tail) == Some((t, rest))
    ensures ReadQuoted("\"\"" + tail) == Some(("\"" + t, rest))
  {
    assert ("\"\"" + tail)[2..] == tail;
  }

  lemma ReadQuotedChar(c: char, tail: string, t: string, rest: string)
    requires c != '"' && ReadQuoted(tail) == Some((t, rest))
    ensures ReadQuoted([c] + tail) == Some(([c] + t, rest))
  {
    assert ([c] + tail)[1..] == tail;
  }

  lemma EscapeQuotesCons(t: string, rest: string)
    requires t != []
    ensures EscapeQuotes(t) + "\"" + rest
         == (if t[0] == '"' then "\"\"" else [t[0]]) + (EscapeQuotes(t[1..]) + "\"" + rest)
  {
    var head := if t[0] == '"' then "\"\"" else [t[0]];
    assert EscapeQuotes(t) == head + EscapeQuotes(t[1..]);
  }

  /** An escaped text followed by a closing quote reads back as the text. */
  lemma {:induction false} ReadQuotedEscaped(t: string, rest: string)
    requires rest == [] || rest[0] != '"'
    ensures ReadQuoted(EscapeQuotes(t) + "\"" + rest) == Some((t, rest))
    decreases |t|
  {
    var s := EscapeQuotes(t) + "\"" + rest;
    if t == [] {
      assert s == "\"" + rest;
      ReadQuotedClose(rest);
    } else {
      var tail := EscapeQuotes(t[1..]) + "\"" + rest;
      ReadQuotedEscaped(t[1..], rest);
      EscapeQuotesCons(t, rest);
      if t[0] == '"' {
        assert s == "\"\"" + tail;
        ReadQuotedDoubled(tail, t[1..], rest);
        assert "\"" + t[1..] == t;
      } else {
        assert s == [t[0]] + tail;
        ReadQuotedChar(t[0], tail, t[1..], rest);
        assert [t[0]] + t[1..] == t;
      }
    }
  }

  lemma PlainLengthOf(t: string, rest: string)
    requires PlainSafe(t)
    requires rest == [] || rest[0] == ',' || rest[0] == '\n'
    ensures PlainLength(t + rest) == |t|
  {
    assert forall i :: 0 <= i < |t| ==> (t + rest)[i] == t[i];
    assert rest != [] ==> (t + rest)[|t|] == rest[0];
  }

  /** A written cell, followed by a separator or the end, reads back as its text. */
  lemma ReadFieldEncoded(c: Cell, rest: string)
    requires CellSafe(c)
    requires rest == [] || rest[0] == ',' || rest[0] == '\n'
    ensures ReadField(Encode(c) + rest) == Some((c.text, rest))
  {
    match c
    case Plain(t) => ReadPlainField(t, rest);
    case Quoted(t) => ReadQuotedField(t, rest);
  }

  lemma ReadPlainField(t: string, rest: string)
    requires PlainSafe(t)
    requires rest == [] || rest[0] == ',' || rest[0] == '\n'
    ensures ReadField(t + rest) == Some((t, rest))
  {
    var s := t + rest;
    PlainLengthOf(t, rest);
    assert s[..|t|] == t && s[|t|..] == rest;
    if t != [] {
      assert s[0] == t[0];
    }
  }

  lemma ReadQuotedField(t: string, rest: string)
    requires rest == [] || rest[0] == ',' || rest[0] == '\n'
    ensures ReadField(QuoteField(t) + rest) == Some((t, rest))
  {
    var s := QuoteField(t) + rest;
    assert s == "\"" + (EscapeQuotes(t) + "\"" + rest);
    assert s[1..] == EscapeQuotes(t) + "\"" + rest;
    ReadQuotedEscaped(t, rest);
  }

  /** A written line, followed by a line feed or the end, reads back as its cells' texts. */
  lemma ReadRecordLast(s: string, f: string, rest: string)
    requires ReadField(s) == Some((f, rest)) && (rest == [] || rest[0] == '\n')
    ensures ReadRecord(s) == Some(([f], if rest == [] then None else Some(rest[1..])))
  {
  }

  lemma ReadRecordComma(s: string, f: string, rest: string, fs: seq<string>, next: Option<string>)
    requires ReadField(s) == Some((f, rest)) && rest != [] && rest[0] == ','
    requires ReadRecord(rest[1..]) == Some((fs, next))
    ensures ReadRecord(s) == Some(([f] + fs, next))
  {
  }

  lemma JoinFirst(sep: char, parts: seq<string>, tail: string)
    requires |parts| > 1
    ensures Join(sep, parts) + tail == parts[0] + ([sep] + (Join(sep, parts[1..]) + tail))
  {
  }

  lemma TextsOfCons(cells: seq<Cell>)
    requires cells != []
    ensures TextsOf(cells) == [cells[0].text] + TextsOf(cells[1..])
  {
  }

  lemma EncodeAllTail(cells: seq<Cell>)
    requires cells != []
    ensures EncodeAll(cells)[0] == Encode(cells[0])
    ensures EncodeAll(cells)[1..] == EncodeAll(cells[1..])
  {
  }

  /** A written line, followed by a line feed or the end, reads back as its cells' texts. */
  lemma {:induction false} ReadRecordEncoded(cells: seq<Cell>, tail: string)
    requires cells != []
    requires forall i :: 0 <= i < |cells| ==> CellSafe(cells[i])
    requires tail == [] || tail[0] == '\n'
    ensures ReadRecord(Join(',', EncodeAll(cells)) + tail)
         == Some((TextsOf(cells), if tail == [] then None else Some(tail[1..])))
    decreases |cells|
  {
    var parts := EncodeAll(cells);
    var s := Join(',', parts) + tail;
    EncodeAllTail(cells);
    TextsOfCons(cells);
    if |cells| == 1 {
      assert s == Encode(cells[0]) + tail;
      assert TextsOf(cells) == [cells[0].text];
      ReadFieldEncoded(cells[0], tail);
      ReadRecordLast(s, cells[0].text, tail);
    } else {
      var line := Join(',', EncodeAll(cells[1..])) + tail;
      var rest := [','] + line;
      JoinFirst(',', parts, tail);
      ReadFieldEncoded(cells[0], rest);
      assert rest[1..] == line;
      ReadRecordEncoded(cells[1..], tail);
      ReadRecordComma(s, cells[0].text, rest, TextsOf(cells[1..]), if tail == [] then None else Some(tail[1..]));
    }
  }

  function EncodeLines(rows: seq<seq<Cell>>): (out: seq<string>)
    ensures |out| == |rows|
  {
    if rows == [] then [] else [Join(',', EncodeAll(rows[0]))] + EncodeLines(rows[1..])
  }

  function TextLines(rows: seq<seq<Cell>>): (out: seq<seq<string>>)
    ensures |out| == |rows|
  {
    if rows == [] then [] else [TextsOf(rows[0])] + TextLines(rows[1..])
  }

  predicate RowsSafe(rows: seq<seq<Cell>>) {
    forall k :: 0 <= k < |rows| ==> rows[k] != [] && forall i :: 0 <= i < |rows[k]| ==> CellSafe(rows[k][i])
  }

  lemma RowsSafeSplit(rows: seq<seq<Cell>>)
    requires rows != [] && RowsSafe(rows)
    ensures rows[0] != [] && forall i :: 0 <= i < |rows[0]| ==> CellSafe(rows[0][i])
    ensures RowsSafe(rows[1..])
  {
    forall k | 0 <= k < |rows| - 1 ensures rows[1..][k] == rows[k + 1] {
    }
  }

  lemma ReadDocumentLast(s: string, fs: seq<string>)
    requires ReadRecord(s) == Some((fs, None))
    ensures ReadDocument(s) == Some([fs])
  {
  }

  lemma ReadDocumentNext(s: string, fs: seq<string>, next: string, lines: seq<seq<string>>)
    requires ReadRecord(s) == Some((fs, Some(next)))
    requires ReadDocument(next) == Some(lines)
    ensures ReadDocument(s) == Some([fs] + lines)
  {
  }

  lemma LinesHead(rows: seq<seq<Cell>>)
    requires rows != []
    ensures EncodeLines(rows)[0] == Join(',', EncodeAll(rows[0]))
    ensures EncodeLines(rows)[1..] == EncodeLines(rows[1..])
    ensures TextLines(rows) == [TextsOf(rows[0])] + TextLines(rows[1..])
  {
  }

  lemma ReadOneLine(rows: seq<seq<Cell>>)
    requires |rows| == 1 && RowsSafe(rows)
    ensures ReadDocument(Join('\n', EncodeLines(rows))) == Some(TextLines(rows))
  {
    var first := Join(',', EncodeAll(rows[0]));
    assert Join('\n', EncodeLines(rows)) == first + "" by {
      LinesHead(rows);
    }
    assert ReadRecord(first + "") == Some((TextsOf(rows[0]), None)) by {
      RowsSafeSplit(rows);
      ReadRecordEncoded(rows[0], "");
    }
    ReadDocumentLast(first + "", TextsOf(rows[0]));
    assert TextLines(rows) == [TextsOf(rows[0])] by {
      LinesHead(rows);
      assert TextLines(rows[1..]) == [];
    }
  }

  lemma ReadLineThenRest(rows: seq<seq<Cell>>)
    requires |rows| > 1 && RowsSafe(rows)
    requires ReadDocument(Join('\n', EncodeLines(rows[1..]))) == Some(TextLines(rows[1..]))
    ensures ReadDocument(Join('\n', EncodeLines(rows))) == Some(TextLines(rows))
  {
    var first := Join(',', EncodeAll(rows[0]));
    var next := Join('\n', EncodeLines(rows[1..]));
    var tail := ['\n'] + next;
    assert Join('\n', EncodeLines(rows)) == first + tail by {
      LinesHead(rows);
      JoinFirst('\n', EncodeLines(rows), "");
    }
    assert ReadRecord(first + tail) == Some((TextsOf(rows[0]), Some(next))) by {
      RowsSafeSplit(rows);
      ReadRecordEncoded(rows[0], tail);
      assert tail[1..] == next;
    }
    ReadDocumentNext(first + tail, TextsOf(rows[0]), next, TextLines(rows[1..]));
    assert TextLines(rows) == [TextsOf(rows[0])] + TextLines(rows[1..]) by {
      LinesHead(rows);
    }
  }

  /** Written lines, joined by line feeds, read back as their cells' texts. */
  lemma {:induction false} ReadDocumentEncoded(rows: seq<seq<Cell>>)
    requires rows != [] && RowsSafe(rows)
    ensures ReadDocument(Join('\n', EncodeLines(rows))) == Some(TextLines(rows))
    decreases |rows|
  {
    if |rows| == 1 {
      ReadOneLine(rows);
    } else {
      RowsSafeSplit(rows);
      ReadDocumentEncoded(rows[1..]);
      ReadLineThenRest(rows);
    }
  }

  // ---------------------------------------------------------------------------
  // The export read back
  // ---------------------------------------------------------------------------

  function HeaderCells(): seq<Cell> {
    [Plain("日期时间"), Plain("部位"), Plain("收缩压(mmHg)"), Plain("舒张压(mmHg)"), Plain("心率(bpm)"), Plain("备注")]
  }

  function RowCells(r: BPRecord, localeText: Timestamp -> string): seq<Cell> {
    [Plain(localeText(r.timestamp)), Plain(r.arm), Plain(IntToText(r.systolic)), Plain(IntToText(r.diastolic)),
     Plain(IntToText(r.heartRate)), Quoted(r.note)]
  }

  /** What a reader should find on a reading's line: the six values, the note exactly as typed. */
  function RowTexts(r: BPRecord, localeText: Timestamp -> string): seq<string> {
    [localeText(r.timestamp), r.arm, IntToText(r.systolic), IntToText(r.diastolic), IntToText(r.heartRate), r.note]
  }

  function AllRowTexts(records: seq<BPRecord>, localeText: Timestamp -> string): (out: seq<seq<string>>)
    ensures |out| == |records|
    ensures forall i :: 0 <= i < |records| ==> out[i] == RowTexts(records[i], localeText)
  {
    if records == [] then [] else [RowTexts(records[0], localeText)] + AllRowTexts(records[1..], localeText)
  }

  /** The date text and the arm are written without quotes, so they must hold no comma, quote or line feed. */
  predicate Exportable(records: seq<BPRecord>, localeText: Timestamp -> string) {
    forall i :: 0 <= i < |records| ==> PlainSafe(localeText(records[i].timestamp)) && PlainSafe(records[i].arm)
  }

  function AllRowCells(records: seq<BPRecord>, localeText: Timestamp -> string): (out: seq<seq<Cell>>)
    ensures |out| == |records|
  {
    if records == [] then [] else [RowCells(records[0], localeText)] + AllRowCells(records[1..], localeText)
  }

  lemma IntTextPlainSafe(n: int)
    ensures PlainSafe(IntToText(n))
  {
  }

  lemma {:induction false} RowsAreEncoded(records: seq<BPRecord>, localeText: Timestamp -> string)
    requires Exportable(records, localeText)
    ensures CsvRows(records, localeText) == EncodeLines(AllRowCells(records, localeText))
    ensures TextLines(AllRowCells(records, localeText)) == AllRowTexts(records, localeText)
    ensures RowsSafe(AllRowCells(records, localeText))
    decreases |records|
  {
    if records != [] {
      var r := records[0];
      var cells := RowCells(r, localeText);
      RowEncoding(r, localeText);
      RowCellsSafe(r, localeText);
      RowsAreEncoded(records[1..], localeText);
      RowsSafeCons(cells, AllRowCells(records[1..], localeText));
    }
  }

  lemma RowCellsSafe(r: BPRecord, localeText: Timestamp -> string)
    requires PlainSafe(localeText(r.timestamp)) && PlainSafe(r.arm)
    ensures forall i :: 0 <= i < |RowCells(r, localeText)| ==> CellSafe(RowCells(r, localeText)[i])
  {
    IntTextPlainSafe(r.systolic);
    IntTextPlainSafe(r.diastolic);
    IntTextPlainSafe(r.heartRate);
  }

  lemma HeaderRow()
    ensures EncodeAll(HeaderCells()) == HeaderLabels
    ensures TextsOf(HeaderCells()) == HeaderLabels
    ensures HeaderCells() != [] && forall i :: 0 <= i < |HeaderCells()| ==> CellSafe(HeaderCells()[i])
  {
    HeaderLabelsSafe();
  }

  lemma HeaderLabelsSafe()
    ensures forall i :: 0 <= i < |HeaderLabels| ==> PlainSafe(HeaderLabels[i])
  {
    assert PlainSafe("日期时间") && PlainSafe("部位") && PlainSafe("备注");
    assert PlainSafe("收缩压(mmHg)");
    assert PlainSafe("舒张压(mmHg)");
    assert PlainSafe("心率(bpm)");
  }

  lemma RowsSafeCons(row: seq<Cell>, rest: seq<seq<Cell>>)
    requires row != [] && forall i :: 0 <= i < |row| ==> CellSafe(row[i])
    requires RowsSafe(rest)
    ensures RowsSafe([row] + rest)
  {
    var rows := [row] + rest;
    forall k | 0 <= k < |rows| ensures rows[k] != [] && forall i :: 0 <= i < |rows[k]| ==> CellSafe(rows[k][i]) {
      if k > 0 {
        assert rows[k] == rest[k - 1];
      }
    }
  }

  /**
   * The export reads back as the header and then, line by line in list order, each reading's
   * six values, with its note exactly as typed (commas, quotes and line feeds included),
   * provided the unquoted date text and arm hold no comma, quote or line feed.
   */
  lemma ExportRoundTrip(records: seq<BPRecord>, localeText: Timestamp -> string)
    requires records != [] && Exportable(records, localeText)
    ensures ExportCsv(records, localeText).Some?
    ensures ReadDocument(ExportCsv(records, localeText).value) == Some([HeaderLabels] + AllRowTexts(records, localeText))
  {
    RowsAreEncoded(records, localeText);
    HeaderRow();
    var body := AllRowCells(records, localeText);
    var rows := [HeaderCells()] + body;
    assert rows[1..] == body;
    assert EncodeLines(rows) == [Join(',', HeaderLabels)] + CsvRows(records, localeText);
    assert TextLines(rows) == [HeaderLabels] + AllRowTexts(records, localeText);
    RowsSafeCons(HeaderCells(), body);
    ReadDocumentEncoded(rows);
  }

  lemma JoinCons(sep: char, x: string, rest: seq<string>)
    requires rest != []
    ensures Join(sep, [x] + rest) == x + [sep] + Join(sep, rest)
  {
    assert ([x] + rest)[1..] == rest;
  }

  /** The cells of a line whose date text is `a + "," + b`, as a reader sees them. */
  function SplitDateCells(r: BPRecord, localeText: Timestamp -> string, a: string, b: string): seq<Cell> {
    [Plain(a), Plain(b)] + RowCells(r, localeText)[1..]
  }

  lemma EncodeAllConcat(x: seq<Cell>, y: seq<Cell>)
    ensures EncodeAll(x + y) == EncodeAll(x) + EncodeAll(y)
  {
  }

  lemma JoinSplitFirst(sep: char, a: string, b: string, rest: seq<string>)
    requires rest != []
    ensures Join(sep, [a + [sep] + b] + rest) == Join(sep, [a, b] + rest)
  {
    JoinCons(sep, a + [sep] + b, rest);
    JoinCons(sep, b, rest);
    assert ([a, b] + rest)[1..] == [b] + rest;
  }

  /** One row's cells: they encode to the parts the export joins, and read back as the row's values. */
  lemma RowEncoding(r: BPRecord, localeText: Timestamp -> string)
    ensures EncodeAll(RowCells(r, localeText))
         == [localeText(r.timestamp), r.arm, IntToText(r.systolic), IntToText(r.diastolic),
             IntToText(r.heartRate), QuoteField(r.note)]
    ensures TextsOf(RowCells(r, localeText)) == RowTexts(r, localeText)
  {
  }

  lemma SplitDateLine(r: BPRecord, localeText: Timestamp -> string, a: string, b: string)
    requires localeText(r.timestamp) == a + "," + b
    ensures Join(',', EncodeAll(SplitDateCells(r, localeText, a, b))) == CsvRow(r, localeText)
  {
    var cells := RowCells(r, localeText);
    var parts := EncodeAll(cells);
    RowEncoding(r, localeText);
    EncodeAllConcat([Plain(a), Plain(b)], cells[1..]);
    assert EncodeAll(cells[1..]) == parts[1..];
    assert EncodeAll([Plain(a), Plain(b)]) == [a, b];
    assert parts == [a + "," + b] + parts[1..];
    JoinSplitFirst(',', a, b, parts[1..]);
  }

  lemma SplitDateCellsSafe(r: BPRecord, localeText: Timestamp -> string, a: string, b: string)
    requires PlainSafe(a) && PlainSafe(b) && PlainSafe(r.arm)
    ensures SplitDateCells(r, localeText, a, b) != []
    ensures forall i :: 0 <= i < |SplitDateCells(r, localeText, a, b)| ==> CellSafe(SplitDateCells(r, localeText, a, b)[i])
    ensures TextsOf(SplitDateCells(r, localeText, a, b))
         == [a, b, r.arm, IntToText(r.systolic), IntToText(r.diastolic), IntToText(r.heartRate), r.note]
  {
    IntTextPlainSafe(r.systolic);
    IntTextPlainSafe(r.diastolic);
    IntTextPlainSafe(r.heartRate);
  }

  /** A single written line reads back as its cells' texts. */
  lemma ReadLine(cells: seq<Cell>)
    requires cells != []
    requires forall i :: 0 <= i < |cells| ==> CellSafe(cells[i])
    ensures ReadRecord(Join(',', EncodeAll(cells))) == Some((TextsOf(cells), None))
  {
    var line := Join(',', EncodeAll(cells));
    assert line + "" == line;
    ReadRecordEncoded(cells, "");
  }

  /**
   * One reading's line reads back as its six values, the note exactly as typed, when its
   * unquoted date text and arm hold no comma, quote or line feed.
   */
  lemma CsvRowReadsBack(r: BPRecord, localeText: Timestamp -> string)
    requires PlainSafe(localeText(r.timestamp)) && PlainSafe(r.arm)
    ensures ReadRecord(CsvRow(r, localeText)) == Some((RowTexts(r, localeText), None))
  {
    RowEncoding(r, localeText);
    RowCellsSafe(r, localeText);
    ReadLine(RowCells(r, localeText));
  }

  /**
   * The date text is not quoted: a locale whose date text holds a comma ("1/18/2025, 8:56:00 AM")
   * gives the line seven fields, and every later column moves one place to the right.
   */
  lemma CommaInDateShiftsColumns(r: BPRecord, localeText: Timestamp -> string, a: string, b: string)
    requires localeText(r.timestamp) == a + "," + b
    requires PlainSafe(a) && PlainSafe(b) && PlainSafe(r.arm)
    ensures ReadRecord(CsvRow(r, localeText)).Some?
    ensures ReadRecord(CsvRow(r, localeText)).value.0
         == [a, b, r.arm, IntToText(r.systolic), IntToText(r.diastolic), IntToText(r.heartRate), r.note]
  {
    var cells := SplitDateCells(r, localeText, a, b);
    SplitDateCellsSafe(r, localeText, a, b);
    SplitDateLine(r, localeText, a, b);
    ReadLine(cells);
  }
}
