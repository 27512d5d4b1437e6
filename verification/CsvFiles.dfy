/**
 * What the reader makes of a file, said of its text
 * (packages/core/src/catalog/csv.ts:222-339): cells plain or quoted, any line
 * ending per record, the last one optional, and what an unclosed quote reports.
 */
module CsvFiles {
  import opened Common
  import opened Csv

  /** A cell as it is written: an optional quoted part, and the rest as it stands. */
  datatype Cell = Cell(quoted: Option<Text>, rest: Text)

  datatype LineEnd = EndsLf | EndsCr | EndsCrLf | Unended

  datatype Row = Row(cells: seq<Cell>, end: LineEnd)

  function ValueOf(c: Cell): Text { (if c.quoted.Some? then c.quoted.value else []) + c.rest }

  function Values(cells: seq<Cell>): (r: Record)
    ensures |r| == |cells|
  {
    seq(|cells|, i requires 0 <= i < |cells| => ValueOf(cells[i]))
  }

  function Records(rows: seq<Row>): (r: seq<Record>)
    ensures |r| == |rows|
  {
    seq(|rows|, i requires 0 <= i < |rows| => Values(rows[i].cells))
  }

  /** Every quote of the text twice. */
  function QuotesTwice(t: Text): Text {
    if t == [] then [] else (if t[0] == QUOTE then [QUOTE, QUOTE] else [t[0]]) + QuotesTwice(t[1..])
  }

  function CellText(c: Cell): Text {
    (if c.quoted.Some? then [QUOTE] + QuotesTwice(c.quoted.value) + [QUOTE] else []) + c.rest
  }

  function CellsText(cells: seq<Cell>): Text {
    if cells == [] then []
    else if |cells| == 1 then CellText(cells[0])
    else CellsText(cells[..|cells| - 1]) + [COMMA] + CellText(cells[|cells| - 1])
  }

  function EndText(end: LineEnd): Text {
    match end
    case EndsLf => [LF]
    case EndsCr => [CR]
    case EndsCrLf => [CR, LF]
    case Unended => []
  }

  function RowText(r: Row): Text { CellsText(r.cells) + EndText(r.end) }

  function FileText(rows: seq<Row>): Text {
    if rows == [] then [] else FileText(rows[..|rows| - 1]) + RowText(rows[|rows| - 1])
  }

  /** What stands outside quotes holds no separator and does not begin with a quote. */
  predicate WellWritten(c: Cell) {
    COMMA !in c.rest && CR !in c.rest && LF !in c.rest && (c.rest != [] ==> c.rest[0] != QUOTE)
  }

  /** A line of one cell with nothing in it: no character at all before its end. */
  predicate IsBlank(r: Row) { r.cells == [Cell(None, [])] }

  predicate RowIsWell(r: Row) {
    r.cells != [] && forall i :: 0 <= i < |r.cells| ==> WellWritten(r.cells[i])
  }

  /**
   * The texts that can be read in one way only: lines end except perhaps the last, which is not blank then, and no line
   * ended by CR is followed by a blank one ended by LF, which would be one CR LF.
   */
  predicate FileIsWell(rows: seq<Row>) {
    && (forall i :: 0 <= i < |rows| ==> RowIsWell(rows[i]))
    && (forall i :: 0 <= i < |rows| - 1 ==> rows[i].end != Unended)
    && (rows != [] && rows[|rows| - 1].end == Unended ==> !IsBlank(rows[|rows| - 1]))
    && (forall i :: 0 < i < |rows| && rows[i - 1].end == EndsCr && rows[i].end == EndsLf ==> !IsBlank(rows[i]))
  }

  // ----- one cell -----

  lemma {:induction false} RestReads(m: Machine, t: Text)
    requires !m.pendingLf && COMMA !in t && CR !in t && LF !in t
    requires m.mode == Unquoted
      || (m.mode == FieldStart && m.field == [] && (t != [] ==> t[0] != QUOTE))
      || (m.mode == AfterQuote && (t != [] ==> t[0] != QUOTE))
    ensures Feed(m, t) == if t == [] then m else m.(mode := Unquoted, field := m.field + t)
  {
    hide Feed;
    hide Step;
    if t == [] {
      NothingReads(m);
    } else {
      var n := |t| - 1;
      RestReads(m, t[..n]);
      assert t == t[..n] + [t[n]] && t[n] in t;
      assert m.field + t == m.field + t[..n] + [t[n]];
      FeedJoined(m, t[..n], [t[n]]);
      FeedOne(Feed(m, t[..n]), t[n]);
      PlainUnitReads(Feed(m, t[..n]), t[n]);
    }
  }

  lemma NothingReads(m: Machine)
    ensures Feed(m, []) == m
  {
  }

  lemma PlainUnitReads(m: Machine, c: Unit)
    requires !m.pendingLf && c != COMMA && c != CR && c != LF
    requires m.mode == Unquoted || (m.mode != Quoted && c != QUOTE && (m.mode == FieldStart ==> m.field == []))
    ensures Step(m, c) == m.(mode := Unquoted, field := m.field + [c])
  {
  }

  /** One unit between quotes, a quote being written twice. */
  lemma QuotedUnitReads(m: Machine, c: Unit)
    requires m.mode == Quoted && !m.pendingLf
    ensures Feed(m, if c == QUOTE then [QUOTE, QUOTE] else [c]) == m.(field := m.field + [c])
  {
    if c == QUOTE {
      assert [QUOTE, QUOTE] == [QUOTE] + [QUOTE];
      FeedJoined(m, [QUOTE], [QUOTE]);
      FeedOne(m, QUOTE);
      FeedOne(Step(m, QUOTE), QUOTE);
    } else {
      FeedOne(m, c);
    }
  }

  lemma {:induction false} QuotedReads(m: Machine, t: Text)
    requires m.mode == Quoted && !m.pendingLf
    ensures Feed(m, QuotesTwice(t)) == m.(field := m.field + t)
    decreases |t|
  {
    hide Feed;
    if t == [] {
      NothingReads(m);
      assert m.field + [] == m.field;
    } else {
      var after := m.(field := m.field + [t[0]]);
      FeedJoined(m, if t[0] == QUOTE then [QUOTE, QUOTE] else [t[0]], QuotesTwice(t[1..]));
      QuotedUnitReads(m, t[0]);
      QuotedReads(after, t[1..]);
      assert after.field + t[1..] == m.field + t;
    }
  }

  lemma CellReads(m: Machine, c: Cell)
    requires AtField(m) && WellWritten(c)
    ensures Holding(Feed(m, CellText(c)), m, ValueOf(c))
    ensures c != Cell(None, []) ==> Feed(m, CellText(c)).mode != FieldStart
  {
    if c.quoted.Some? {
      var q, open := c.quoted.value, m.(mode := Quoted);
      var closed := m.(mode := AfterQuote, field := q);
      FeedJoined(m, [QUOTE] + QuotesTwice(q) + [QUOTE], c.rest);
      FeedJoined(m, [QUOTE] + QuotesTwice(q), [QUOTE]);
      FeedJoined(m, [QUOTE], QuotesTwice(q));
      FeedOne(m, QUOTE);
      QuotedReads(open, q);
      assert [] + q == q;
      FeedOne(open.(field := q), QUOTE);
      RestReads(closed, c.rest);
      assert q + [] == q;
    } else {
      assert [] + c.rest == c.rest;
      RestReads(m, c.rest);
    }
  }

  // ----- one record -----

  lemma {:induction false} CellsRead(m: Machine, cells: seq<Cell>)
    requires AtField(m) && m.record == [] && cells != [] && forall i :: 0 <= i < |cells| ==> WellWritten(cells[i])
    ensures Holding(Feed(m, CellsText(cells)), m.(record := Values(cells[..|cells| - 1])), ValueOf(cells[|cells| - 1]))
    ensures cells != [Cell(None, [])] ==>
      Feed(m, CellsText(cells)).mode != FieldStart || Feed(m, CellsText(cells)).record != []
  {
    hide Feed;
    hide CellText;
    hide ValueOf;
    hide WellWritten;
    var n := |cells| - 1;
    if n == 0 {
      CellReads(m, cells[0]);
      assert m.(record := Values(cells[..0])) == m && cells == [cells[0]];
    } else {
      var front := CellsText(cells[..n]);
      var before := m.(record := Values(cells[..n - 1]));
      assert cells[..n][..n - 1] == cells[..n - 1];
      CellsRead(m, cells[..n]);
      CommaEndsField(Feed(m, front), before, ValueOf(cells[n - 1]));
      assert Values(cells[..n - 1]) + [ValueOf(cells[n - 1])] == Values(cells[..n]);
      FeedJoined(m, front, [COMMA]);
      FeedJoined(m, front + [COMMA], CellText(cells[n]));
      CellReads(m.(record := Values(cells[..n])), cells[n]);
    }
  }

  /** A pending LF matters only to a text that starts with one. */
  lemma {:induction false} PendingIsOver(m: Machine, t: Text)
    requires t == [] || t[0] != LF
    ensures t != [] ==> Feed(m, t) == Feed(m.(pendingLf := false), t)
  {
    if |t| == 1 {
      assert t == [t[0]];
      FeedOne(m, t[0]);
      FeedOne(m.(pendingLf := false), t[0]);
    } else if t != [] {
      PendingIsOver(m, t[..|t| - 1]);
    }
  }

  lemma LineEnds(held: Machine, m: Machine, value: Text, end: LineEnd)
    requires AtField(m) && Holding(held, m, value) && end != Unended
    ensures Feed(held, EndText(end)) ==
      m.(out := m.out + [m.record + [value]], record := [], pendingLf := end == EndsCr)
  {
    match end
    case EndsLf => FeedOne(held, LF);
    case EndsCr => FeedOne(held, CR);
    case EndsCrLf => NewlineEndsRecord(held, m, value);
  }

  lemma RowReads(m: Machine, r: Row)
    requires AtField(m) && m.record == [] && RowIsWell(r)
    ensures r.end != Unended ==>
      Feed(m, RowText(r)) == m.(out := m.out + [Values(r.cells)], pendingLf := r.end == EndsCr)
    ensures r.end == Unended && !IsBlank(r) ==> Finish(Feed(m, RowText(r))) == Success(m.out + [Values(r.cells)])
  {
    hide Feed;
    hide CellsText;
    hide WellWritten;
    hide ValueOf;
    var n := |r.cells| - 1;
    var held := Feed(m, CellsText(r.cells));
    CellsRead(m, r.cells);
    assert Values(r.cells[..n]) + [ValueOf(r.cells[n])] == Values(r.cells);
    FeedJoined(m, CellsText(r.cells), EndText(r.end));
    if r.end == Unended {
      assert RowText(r) == CellsText(r.cells);
    } else {
      LineEnds(held, m.(record := Values(r.cells[..n])), ValueOf(r.cells[n]), r.end);
    }
  }

  // ----- the file -----

  lemma CellStart(c: Cell)
    requires WellWritten(c)
    ensures CellText(c) != [] ==> CellText(c)[0] != LF && CellText(c)[0] != COMMA
    ensures CellText(c) == [] <==> c == Cell(None, [])
  {
    if c.quoted.None? {
      assert CellText(c) == c.rest;
    }
  }

  lemma {:induction false} CellsStart(cells: seq<Cell>)
    requires cells != [] && forall i :: 0 <= i < |cells| ==> WellWritten(cells[i])
    ensures CellsText(cells) != [] ==> CellsText(cells)[0] != LF
    ensures CellsText(cells) == [] <==> cells == [Cell(None, [])]
  {
    hide CellText;
    hide WellWritten;
    CellStart(cells[0]);
    if |cells| > 1 {
      CellsStart(cells[..|cells| - 1]);
    }
  }

  /** Only a blank line ended by LF starts with LF. */
  lemma RowStart(r: Row)
    requires RowIsWell(r) && !(IsBlank(r) && r.end == EndsLf)
    ensures RowText(r) == [] || RowText(r)[0] != LF
    ensures RowText(r) == [] <==> IsBlank(r) && r.end == Unended
  {
    CellsStart(r.cells);
  }

  lemma {:induction false} RowsRead(rows: seq<Row>)
    requires FileIsWell(rows) && (rows != [] ==> rows[|rows| - 1].end != Unended)
    ensures Feed(START, FileText(rows)) ==
      START.(out := Records(rows), pendingLf := rows != [] && rows[|rows| - 1].end == EndsCr)
  {
    hide Feed;
    hide RowText;
    hide RowIsWell;
    hide IsBlank;
    if rows == [] {
      NothingReads(START);
    } else {
      var n := |rows| - 1;
      FrontIsWell(rows);
      RowsRead(rows[..n]);
      LastRowReads(rows);
      assert Records(rows[..n]) + [Values(rows[n].cells)] == Records(rows);
      RowReads(START.(out := Records(rows[..n])), rows[n]);
    }
  }

  lemma {:induction false} FrontIsWell(rows: seq<Row>)
    requires FileIsWell(rows) && rows != []
    ensures FileIsWell(rows[..|rows| - 1])
    ensures |rows| > 1 ==> rows[..|rows| - 1][|rows| - 2].end != Unended
  {
    hide RowIsWell;
    hide IsBlank;
  }

  /** The last row is read as from the start of a line. */
  lemma {:induction false} LastRowReads(rows: seq<Row>)
    requires FileIsWell(rows) && rows != []
    requires var n := |rows| - 1;
      Feed(START, FileText(rows[..n])) ==
        START.(out := Records(rows[..n]), pendingLf := n > 0 && rows[n - 1].end == EndsCr)
    ensures var n := |rows| - 1;
      Feed(START, FileText(rows)) == Feed(START.(out := Records(rows[..n])), RowText(rows[n]))
  {
    hide Feed;
    hide RowIsWell;
    hide RowText;
    var n := |rows| - 1;
    FeedJoined(START, FileText(rows[..n]), RowText(rows[n]));
    if n > 0 && rows[n - 1].end == EndsCr {
      RowStart(rows[n]);
      PendingIsOver(START.(out := Records(rows[..n]), pendingLf := true), RowText(rows[n]));
      if RowText(rows[n]) == [] {
        assert false;
      }
    }
  }

  lemma TextReadsBack(rows: seq<Row>)
    requires FileIsWell(rows)
    ensures Finish(Feed(START, FileText(rows))) == Success(Records(rows))
  {
    hide Feed;
    hide RowIsWell;
    hide RowText;
    hide IsBlank;
    if rows == [] || rows[|rows| - 1].end != Unended {
      RowsRead(rows);
    } else {
      var n := |rows| - 1;
      FrontIsWell(rows);
      RowsRead(rows[..n]);
      LastRowReads(rows);
      RowReads(START.(out := Records(rows[..n])), rows[n]);
      assert Records(rows[..n]) + [Values(rows[n].cells)] == Records(rows);
    }
  }

  /**
   * Any file that can be read in one way only is read that way: exactly its cells, line by line, whatever is quoted and
   * however each line ends, with or without a byte order mark in front.
   */
  lemma FilesReadBack(rows: seq<Row>)
    requires FileIsWell(rows)
    ensures FileText(rows) == [] || FileText(rows)[0] != BOM ==> Parse(FileText(rows)) == Success(Records(rows))
    ensures Parse([BOM] + FileText(rows)) == Success(Records(rows))
  {
    hide Feed;
    hide Finish;
    hide FileText;
    TextReadsBack(rows);
    assert Strip([BOM] + FileText(rows)) == FileText(rows);
  }

  // ----- an unclosed quote -----

  /** A line that breaks off inside quotes, after some whole cells. */
  function OpenText(cells: seq<Cell>, open: Text): Text {
    (if cells == [] then [] else CellsText(cells) + [COMMA]) + [QUOTE] + QuotesTwice(open)
  }

  lemma OpenReads(m: Machine, cells: seq<Cell>, open: Text)
    requires AtField(m) && m.record == [] && forall i :: 0 <= i < |cells| ==> WellWritten(cells[i])
    ensures var t := Feed(m, OpenText(cells, open)); t.mode == Quoted && t.out == m.out
  {
    hide Feed;
    hide CellsText;
    hide WellWritten;
    hide ValueOf;
    var before := if cells == [] then [] else CellsText(cells) + [COMMA];
    var after := m.(record := Values(cells));
    assert Feed(m, before) == after by {
      if cells == [] {
        NothingReads(m);
      } else {
        var n := |cells| - 1;
        CellsRead(m, cells);
        FeedJoined(m, CellsText(cells), [COMMA]);
        CommaEndsField(Feed(m, CellsText(cells)), m.(record := Values(cells[..n])), ValueOf(cells[n]));
        assert Values(cells[..n]) + [ValueOf(cells[n])] == Values(cells);
      }
    }
    FeedJoined(m, before + [QUOTE], QuotesTwice(open));
    FeedJoined(m, before, [QUOTE]);
    FeedOne(after, QUOTE);
    QuotedReads(after.(mode := Quoted), open);
  }

  lemma OpenStart(cells: seq<Cell>, open: Text)
    requires forall i :: 0 <= i < |cells| ==> WellWritten(cells[i])
    ensures OpenText(cells, open) != [] && OpenText(cells, open)[0] != LF
  {
    if cells != [] {
      CellsStart(cells);
    }
  }

  /** A file that breaks off inside quotes is refused, with the number of the line that is open, counted in records. */
  lemma UnclosedQuotesAreReported(rows: seq<Row>, cells: seq<Cell>, open: Text)
    requires FileIsWell(rows) && (rows != [] ==> rows[|rows| - 1].end != Unended)
    requires forall i :: 0 <= i < |cells| ==> WellWritten(cells[i])
    ensures var text := FileText(rows) + OpenText(cells, open);
      text[0] != BOM ==> Parse(text) == Failure(|rows| + 1)
  {
    hide Feed;
    hide FileText;
    hide OpenText;
    hide FileIsWell;
    hide WellWritten;
    var text := FileText(rows) + OpenText(cells, open);
    RowsRead(rows);
    OpenStart(cells, open);
    FeedJoined(START, FileText(rows), OpenText(cells, open));
    PendingIsOver(Feed(START, FileText(rows)), OpenText(cells, open));
    OpenReads(START.(out := Records(rows)), cells, open);
  }

  // ----- what is printed -----

  lemma {:induction false} TrimMeans(t: Text)
    ensures Trim(t) == t <==> t == [] || (!IsSpace(t[0]) && !IsSpace(t[|t| - 1]))
  {
  }

  lemma {:induction false} TwiceAppend(a: Text, b: Text)
    ensures QuotesTwice(a + b) == QuotesTwice(a) + QuotesTwice(b)
  {
    if a == [] {
      assert a + b == b;
    } else {
      assert (a + b)[1..] == a[1..] + b;
      TwiceAppend(a[1..], b);
    }
  }

  lemma {:induction false} DoubledIsTwice(t: Text)
    ensures Doubled(t) == QuotesTwice(t)
  {
    if t != [] {
      var n := |t| - 1;
      DoubledIsTwice(t[..n]);
      TwiceAppend(t[..n], [t[n]]);
      assert t == t[..n] + [t[n]] && [t[n]][1..] == [];
    }
  }

  /** A value is quoted only for a separator, a quote, a line end, or white space at either end. */
  predicate MustBeQuoted(t: Text) {
    COMMA in t || QUOTE in t || CR in t || LF in t || (t != [] && (IsSpace(t[0]) || IsSpace(t[|t| - 1])))
  }

  /** The cell a value is printed as: guarded, and quoted when it must be. */
  function PrintedCell(value: Text): Cell {
    var guarded := EscapeFormula(value);
    if MustBeQuoted(guarded) then Cell(Some(guarded), []) else Cell(None, guarded)
  }

  function PrintedCells(values: Record): (r: seq<Cell>)
    ensures |r| == |values|
  {
    seq(|values|, i requires 0 <= i < |values| => PrintedCell(values[i]))
  }

  lemma ValueIsPrinted(value: Text)
    ensures FormatValue(value) == CellText(PrintedCell(value)) && WellWritten(PrintedCell(value))
  {
    var guarded := EscapeFormula(value);
    TrimMeans(guarded);
    DoubledIsTwice(guarded);
    assert [] + guarded == guarded;
    if MustBeQuoted(guarded) {
      assert CellText(PrintedCell(value)) == [QUOTE] + QuotesTwice(guarded) + [QUOTE];
    }
    hide Doubled;
    hide QuotesTwice;
    hide Trim;
  }

  lemma {:induction false} ValuesArePrinted(values: Record)
    requires values != []
    ensures JoinValues(values) == CellsText(PrintedCells(values))
  {
    hide FormatValue;
    hide CellText;
    hide PrintedCell;
    var n := |values| - 1;
    ValueIsPrinted(values[n]);
    if n > 0 {
      ValuesArePrinted(values[..n]);
      assert PrintedCells(values)[..n] == PrintedCells(values[..n]);
    }
  }

  function PrintedRows(records: seq<Record>): (r: seq<Row>)
    ensures |r| == |records|
  {
    seq(|records|, i requires 0 <= i < |records| => Row(PrintedCells(records[i]), EndsCrLf))
  }

  lemma PrintedRowIsWell(values: Record)
    requires values != []
    ensures RowIsWell(Row(PrintedCells(values), EndsCrLf))
    ensures FormatRecord(values) == RowText(Row(PrintedCells(values), EndsCrLf))
  {
    ValuesArePrinted(values);
    forall i | 0 <= i < |values| ensures WellWritten(PrintedCells(values)[i]) {
      ValueIsPrinted(values[i]);
    }
    hide PrintedCell;
    hide WellWritten;
    hide JoinValues;
    hide CellsText;
  }

  /**
   * What is printed is the file of the records, line by line: each
   * value guarded, quoted only when it must be, ended CR LF.
   */
  lemma {:induction false} PrintIsAFile(records: seq<Record>)
    requires forall i :: 0 <= i < |records| ==> records[i] != []
    ensures Print(records) == FileText(PrintedRows(records)) && FileIsWell(PrintedRows(records))
  {
    hide PrintedCells;
    hide RowIsWell;
    hide RowText;
    hide FormatRecord;
    forall i | 0 <= i < |records| ensures RowIsWell(PrintedRows(records)[i]) {
      PrintedRowIsWell(records[i]);
    }
    if records != [] {
      var n := |records| - 1;
      PrintIsAFile(records[..n]);
      PrintedRowIsWell(records[n]);
      assert PrintedRows(records)[..n] == PrintedRows(records[..n]);
    }
  }
}
