/**
 * The CSV codec (packages/core/src/catalog/csv.ts:222-405): an incremental
 * reader of the grammar of section 2 of RFC 4180, and a printer with a
 * reversible formula guard. Text is UTF-16 code units.
 */
module Csv {
  import opened Common

  newtype Unit = u: int | 0 <= u < 0x1_0000

  type Text = seq<Unit>
  type Record = seq<Text>

  const TAB: Unit := 0x09
  const LF: Unit := 0x0A
  const CR: Unit := 0x0D
  const QUOTE: Unit := 0x22
  const APOSTROPHE: Unit := 0x27
  const PLUS: Unit := 0x2B
  const COMMA: Unit := 0x2C
  const MINUS: Unit := 0x2D
  const EQUALS: Unit := 0x3D
  const AT: Unit := 0x40
  const BOM: Unit := 0xFEFF

  // ----- what the reader computes -----

  datatype Mode = FieldStart | Unquoted | Quoted | AfterQuote

  /** The reader between two units, with everything it has delivered so far. */
  datatype Machine = Machine(mode: Mode, field: Text, record: Record, pendingLf: bool, out: seq<Record>)

  const START := Machine(FieldStart, [], [], false, [])

  predicate IsSeparator(c: Unit) { c == COMMA || c == CR || c == LF }

  function EndField(m: Machine): Machine {
    m.(record := m.record + [m.field], field := [], mode := FieldStart)
  }

  function EndRecord(m: Machine, c: Unit): Machine {
    m.(out := m.out + [m.record + [m.field]], record := [], field := [], mode := FieldStart, pendingLf := c == CR)
  }

  function Append(m: Machine, c: Unit, mode: Mode): Machine { m.(field := m.field + [c], mode := mode) }

  function Read(m: Machine, c: Unit): Machine {
    match m.mode
    case FieldStart =>
      if c == QUOTE then m.(mode := Quoted)
      else if c == COMMA then m.(record := m.record + [[]])
      else if c == CR || c == LF then EndRecord(m, c)
      else m.(field := [c], mode := Unquoted)
    case Unquoted =>
      if c == COMMA then EndField(m) else if c == CR || c == LF then EndRecord(m, c) else Append(m, c, Unquoted)
    case Quoted =>
      if c == QUOTE then m.(mode := AfterQuote) else Append(m, c, Quoted)
    case AfterQuote =>
      if c == QUOTE then Append(m, c, Quoted)
      else if c == COMMA then EndField(m)
      else if c == CR || c == LF then EndRecord(m, c)
      else Append(m, c, Unquoted)
  }

  /** The LF of a CR LF pair was accounted for by the CR. */
  function Step(m: Machine, c: Unit): Machine {
    if m.pendingLf && c == LF then m.(pendingLf := false) else Read(m.(pendingLf := false), c)
  }

  function Feed(m: Machine, text: Text): Machine {
    if text == [] then m else Step(Feed(m, text[..|text| - 1]), text[|text| - 1])
  }

  /** The end of the file: the row of an unclosed quote, or the records. */
  function Finish(m: Machine): Result<seq<Record>, nat> {
    if m.mode == Quoted then Failure(|m.out| + 1)
    else if m.mode == FieldStart && m.field == [] && m.record == [] then Success(m.out)
    else Success(m.out + [m.record + [m.field]])
  }

  function Strip(text: Text): Text { if text != [] && text[0] == BOM then text[1..] else text }

  /** The whole text at once. */
  function Parse(text: Text): Result<seq<Record>, nat> { Finish(Feed(START, Strip(text))) }

  /** Chunk after chunk; only the first is looked at for a byte order mark. */
  function FeedChunks(chunks: seq<Text>): Machine {
    if chunks == [] then START
    else
      var last := |chunks| - 1;
      Feed(FeedChunks(chunks[..last]), if last == 0 then Strip(chunks[0]) else chunks[last])
  }

  function Streamed(chunks: seq<Text>): Result<seq<Record>, nat> { Finish(FeedChunks(chunks)) }

  function Flat(chunks: seq<Text>): Text {
    if chunks == [] then [] else Flat(chunks[..|chunks| - 1]) + chunks[|chunks| - 1]
  }

  // ----- chunking -----

  lemma {:induction false} FeedJoined(m: Machine, a: Text, b: Text)
    ensures Feed(m, a + b) == Feed(Feed(m, a), b)
  {
    if b == [] {
      assert a + b == a;
    } else {
      assert (a + b)[..|a + b| - 1] == a + b[..|b| - 1];
      FeedJoined(m, a, b[..|b| - 1]);
    }
  }

  /** The text without the first chunk's mark. */
  function Stripped(chunks: seq<Text>): Text
    requires chunks != [] && chunks[0] <= Flat(chunks)
  {
    Strip(chunks[0]) + Flat(chunks)[|chunks[0]|..]
  }

  lemma {:induction false} FlatStartsWithFirst(chunks: seq<Text>)
    requires chunks != []
    ensures chunks[0] <= Flat(chunks)
  {
    if |chunks| > 1 {
      FlatStartsWithFirst(chunks[..|chunks| - 1]);
    } else {
      assert Flat(chunks[..0]) == [] && Flat(chunks) == [] + chunks[0];
    }
  }

  lemma {:induction false} ChunksFeedTheText(chunks: seq<Text>)
    requires chunks != []
    ensures chunks[0] <= Flat(chunks) && FeedChunks(chunks) == Feed(START, Stripped(chunks))
  {
    FlatStartsWithFirst(chunks);
    var last := |chunks| - 1;
    if last == 0 {
      assert FeedChunks(chunks[..0]) == START;
      assert Flat(chunks) == chunks[0];
      assert Stripped(chunks) == Strip(chunks[0]);
    } else {
      var front := chunks[..last];
      ChunksFeedTheText(front);
      assert Stripped(chunks) == Stripped(front) + chunks[last];
      FeedJoined(START, Stripped(front), chunks[last]);
    }
  }

  /** The one way a mark escapes: an empty first chunk, and the mark in a later one. */
  predicate MarkEscapes(chunks: seq<Text>) {
    chunks != [] && chunks[0] == [] && Flat(chunks) != [] && Flat(chunks)[0] == BOM
  }

  /** However the text is cut, reading it in chunks is reading it whole, unless a mark escapes. */
  lemma ChunkingIsInvisible(chunks: seq<Text>)
    requires !MarkEscapes(chunks)
    ensures Streamed(chunks) == Parse(Flat(chunks))
  {
    if chunks != [] {
      ChunksFeedTheText(chunks);
      StripsTheSame(chunks[0], Flat(chunks));
      hide Feed;
      hide FeedChunks;
      hide Flat;
      hide Finish;
    }
  }

  /** Stripping the first chunk is stripping the text, unless that chunk is empty and the text is marked. */
  lemma StripsTheSame(first: Text, text: Text)
    requires first <= text && !(first == [] && text != [] && text[0] == BOM)
    ensures Strip(first) + text[|first|..] == Strip(text)
  {
  }

  // ----- an escaped mark always shows -----

  predicate Settled(m: Machine) { m.out != [] || m.record != [] }

  /** The first field of the first record, as far as it has been read. */
  function Head(m: Machine): Text {
    if m.out != [] && m.out[0] != [] then m.out[0][0] else if m.record != [] then m.record[0] else m.field
  }

  ghost predicate SeparatorFree(t: Text) { forall i :: 0 <= i < |t| ==> !IsSeparator(t[i]) }

  /** Reading on after the first field leaves it alone. */
  lemma HeadIsKept(m: Machine, c: Unit)
    requires Settled(m) && (m.out != [] ==> m.out[0] != [])
    ensures Settled(Step(m, c)) && Head(Step(m, c)) == Head(m) && (Step(m, c).out != [] ==> Step(m, c).out[0] != [])
  {
  }

  ghost predicate Sane(m: Machine) {
    && (m.out != [] ==> m.out[0] != [])
    && (!Settled(m) ==> !m.pendingLf)
    && (m.mode == FieldStart ==> m.field == [])
  }

  /** Reader a began with a stray mark, reader b without it, on the same text since. */
  ghost predicate Apart(a: Machine, b: Machine) {
    && Sane(a) && Sane(b)
    && SeparatorFree(Head(a))
    && if !Settled(a) then
         a.mode == Unquoted && !Settled(b) && |b.field| < |a.field|
       else
         && Head(b) != Head(a)
         && (!Settled(b) ==> b.mode != FieldStart && !SeparatorFree(b.field))
  }

  lemma StayApart(a: Machine, b: Machine, c: Unit)
    requires Apart(a, b)
    ensures Apart(Step(a, c), Step(b, c))
  {
    if !Settled(a) {
      FirstFieldsStayApart(a, b, c);
    } else if Settled(b) {
      HeadIsKept(a, c);
      HeadIsKept(b, c);
      StepIsSane(a, c);
      StepIsSane(b, c);
      hide Step;
    } else {
      HeadIsKept(a, c);
      StepIsSane(a, c);
      StepIsSane(b, c);
      SeparatorIsKept(b, c);
      hide Step;
    }
  }

  lemma StepIsSane(m: Machine, c: Unit)
    requires Sane(m)
    ensures Sane(Step(m, c))
  {
  }

  /** Neither reader has ended its first field: the stray mark keeps a's longer, and only b can be inside quotes. */
  lemma FirstFieldsStayApart(a: Machine, b: Machine, c: Unit)
    requires Apart(a, b) && !Settled(a)
    ensures Apart(Step(a, c), Step(b, c))
  {
    if IsSeparator(c) && b.mode == Quoted {
      assert Step(b, c).field[|b.field|] == c;
    }
  }

  /** A quoted first field that holds a separator never loses it. */
  lemma SeparatorIsKept(b: Machine, c: Unit)
    requires Sane(b) && !Settled(b) && b.mode != FieldStart && !SeparatorFree(b.field)
    ensures var t := Step(b, c);
      !SeparatorFree(Head(t)) && (!Settled(t) ==> t.mode != FieldStart && !SeparatorFree(t.field))
  {
  }

  lemma {:induction false} ApartToTheEnd(rest: Text)
    ensures Apart(Feed(START, [BOM] + rest), Feed(START, rest))
  {
    if rest == [] {
      assert Feed(START, []) == START;
      assert Feed(START, [BOM] + rest) == Step(Feed(START, ([BOM] + rest)[..0]), BOM);
    } else {
      var n := |rest| - 1;
      ApartToTheEnd(rest[..n]);
      assert ([BOM] + rest)[..n + 1] == [BOM] + rest[..n];
      StayApart(Feed(START, [BOM] + rest[..n]), Feed(START, rest[..n]), rest[n]);
    }
  }

  /** On every text the whole-text form accepts, the chunked form agrees exactly when no mark escapes. */
  lemma ChunkingIsInvisibleExactly(chunks: seq<Text>)
    requires Parse(Flat(chunks)).Success?
    ensures Streamed(chunks) == Parse(Flat(chunks)) <==> !MarkEscapes(chunks)
  {
    if MarkEscapes(chunks) {
      var rest := Flat(chunks)[1..];
      ChunksFeedTheText(chunks);
      assert Stripped(chunks) == [BOM] + rest;
      ApartToTheEnd(rest);
      ApartDiffer(Feed(START, [BOM] + rest), Feed(START, rest));
    } else {
      ChunkingIsInvisible(chunks);
    }
  }

  lemma ApartDiffer(a: Machine, b: Machine)
    requires Apart(a, b) && Finish(b).Success?
    ensures Finish(a) != Finish(b)
  {
    if Finish(a).Success? {
      assert Finish(a).value != [] && Finish(a).value[0] != [] && Finish(a).value[0][0] == Head(a);
      assert Finish(b).value != [] ==> Finish(b).value[0] != [] && Finish(b).value[0][0] == Head(b);
    }
  }

  lemma OnePlainField(t: Text)
    requires t != [] && COMMA !in t && QUOTE !in t && LF !in t && CR !in t
    ensures Finish(Feed(START, t)) == Success([[t]])
  {
    PlainReads(START, t);
    assert START.record + [t] == [t] && START.out + [[t]] == [[t]];
  }

  lemma AfterAnEmptyChunk(t: Text)
    ensures Flat([[], t]) == t && Streamed([[], t]) == Finish(Feed(START, t))
  {
    var chunks := [[], t];
    assert chunks[..1] == [chunks[0]] && chunks[..1][..0] == [];
    assert Flat(chunks[..1]) == [];
    assert Flat(chunks) == [] + t == t;
    ChunksFeedTheText(chunks);
    assert Stripped(chunks) == t;
  }

  /** A file whose first chunk is empty keeps its mark in the first name. */
  lemma AnEscapedMark()
    ensures Flat([[], [BOM, AT]]) == [BOM, AT]
    ensures Streamed([[], [BOM, AT]]) == Success([[[BOM, AT]]]) && Parse([BOM, AT]) == Success([[[AT]]])
  {
    AfterAnEmptyChunk([BOM, AT]);
    hide Streamed;
    hide Flat;
    assert Strip([BOM, AT]) == [AT];
    OnePlainField([BOM, AT]);
    OnePlainField([AT]);
  }

  // ----- the formula guard -----

  predicate LeadsFormula(c: Unit) { c == EQUALS || c == PLUS || c == MINUS || c == AT || c == TAB || c == CR }

  predicate IsGuarded(c: Unit) { c == APOSTROPHE || LeadsFormula(c) }

  function EscapeFormula(value: Text): Text {
    if value != [] && IsGuarded(value[0]) then [APOSTROPHE] + value else value
  }

  function UnescapeFormula(value: Text): Text {
    if value == [] || value[0] != APOSTROPHE then value
    else if |value| > 1 && IsGuarded(value[1]) then value[1..] else value
  }

  /**
   * The guard is undone exactly, and its image is the texts that no
   * spreadsheet evaluates and no guard could have made otherwise.
   */
  lemma GuardIsReversible(value: Text)
    ensures UnescapeFormula(EscapeFormula(value)) == value
    ensures EscapeFormula(value) == [] || !LeadsFormula(EscapeFormula(value)[0])
    ensures EscapeFormula(value) == [] || EscapeFormula(value)[0] !in {0x3D, 0x2B, 0x2D, 0x40, 0x09, 0x0D}
    ensures EscapeFormula(UnescapeFormula(value)) == value <==>
      value == [] || !IsGuarded(value[0]) || (value[0] == APOSTROPHE && |value| > 1 && IsGuarded(value[1]))
  {
  }

  // ----- printing -----

  /** What String.prototype.trim removes: the white space and line terminators of ECMAScript, U+FEFF among them. */
  predicate IsSpace(c: Unit) {
    || 0x09 <= c <= 0x0D || c == 0x20 || c == 0xA0 || c == 0x1680 || 0x2000 <= c <= 0x200A
    || c == 0x2028 || c == 0x2029 || c == 0x202F || c == 0x205F || c == 0x3000 || c == BOM
  }

  function Trim(t: Text): (r: Text)
    ensures |r| <= |t|
    decreases |t|
  {
    if t == [] then []
    else if IsSpace(t[0]) then Trim(t[1..])
    else if IsSpace(t[|t| - 1]) then Trim(t[..|t| - 1])
    else t
  }

  predicate NeedsQuotes(t: Text) { COMMA in t || QUOTE in t || LF in t || CR in t || t != Trim(t) }

  function Doubled(t: Text): Text {
    if t == [] then []
    else Doubled(t[..|t| - 1]) + if t[|t| - 1] == QUOTE then [QUOTE, QUOTE] else [t[|t| - 1]]
  }

  function FormatValue(value: Text): Text {
    var guarded := EscapeFormula(value);
    if NeedsQuotes(guarded) then [QUOTE] + Doubled(guarded) + [QUOTE] else guarded
  }

  function JoinValues(values: Record): Text {
    if values == [] then []
    else if |values| == 1 then FormatValue(values[0])
    else JoinValues(values[..|values| - 1]) + [COMMA] + FormatValue(values[|values| - 1])
  }

  function FormatRecord(values: Record): Text { JoinValues(values) + [CR, LF] }

  function Print(records: seq<Record>): Text {
    if records == [] then [] else Print(records[..|records| - 1]) + FormatRecord(records[|records| - 1])
  }

  function Escaped(values: Record): Record { seq(|values|, i requires 0 <= i < |values| => EscapeFormula(values[i])) }

  function Unescaped(values: Record): Record
  {
    seq(|values|, i requires 0 <= i < |values| => UnescapeFormula(values[i]))
  }

  // ----- reading what was printed -----

  lemma FeedOne(m: Machine, c: Unit)
    ensures Feed(m, [c]) == Step(m, c)
  {
  }

  lemma {:induction false} PlainReads(m: Machine, t: Text)
    requires m.mode == FieldStart && m.field == [] && !m.pendingLf
    requires COMMA !in t && QUOTE !in t && LF !in t && CR !in t
    ensures Feed(m, t) == if t == [] then m else m.(mode := Unquoted, field := t)
  {
    if t != [] {
      PlainReads(m, t[..|t| - 1]);
      assert t == t[..|t| - 1] + [t[|t| - 1]];
    }
  }

  lemma {:induction false} DoubledReads(m: Machine, t: Text)
    requires m.mode == Quoted && !m.pendingLf
    ensures Feed(m, Doubled(t)) == m.(field := m.field + t)
  {
    if t == [] {
      assert m.field + [] == m.field;
    } else {
      var front, c := t[..|t| - 1], t[|t| - 1];
      DoubledReads(m, front);
      var tail := if c == QUOTE then [QUOTE, QUOTE] else [c];
      FeedJoined(m, Doubled(front), tail);
      assert t == front + [c] && (m.field + front) + [c] == m.field + t;
      FeedOne(m.(field := m.field + front), c);
      if c == QUOTE {
        assert tail == [QUOTE] + [QUOTE];
        FeedJoined(m.(field := m.field + front), [QUOTE], [QUOTE]);
        FeedOne(Step(m.(field := m.field + front), QUOTE), QUOTE);
      }
    }
  }

  /** Like m, with `value` read and waiting for the separator that ends it. */
  ghost predicate Holding(t: Machine, m: Machine, value: Text) {
    && t.record == m.record && t.out == m.out && !t.pendingLf && t.field == value
    && (t.mode == Unquoted || t.mode == AfterQuote || (t.mode == FieldStart && value == []))
  }

  predicate AtField(m: Machine) { m.mode == FieldStart && m.field == [] && !m.pendingLf }

  lemma ValueReads(m: Machine, value: Text)
    requires AtField(m)
    ensures Holding(Feed(m, FormatValue(value)), m, EscapeFormula(value))
  {
    var guarded := EscapeFormula(value);
    if NeedsQuotes(guarded) {
      var open := m.(mode := Quoted);
      FeedJoined(m, [QUOTE] + Doubled(guarded), [QUOTE]);
      FeedJoined(m, [QUOTE], Doubled(guarded));
      FeedOne(m, QUOTE);
      DoubledReads(open, guarded);
      FeedOne(open.(field := guarded), QUOTE);
    } else {
      PlainReads(m, guarded);
    }
  }

  lemma CommaEndsField(held: Machine, m: Machine, value: Text)
    requires AtField(m) && Holding(held, m, value)
    ensures Feed(held, [COMMA]) == m.(record := m.record + [value])
  {
  }

  lemma NewlineEndsRecord(held: Machine, m: Machine, value: Text)
    requires AtField(m) && Holding(held, m, value)
    ensures Feed(held, [CR, LF]) == m.(out := m.out + [m.record + [value]], record := [])
  {
    assert [CR, LF] == [CR] + [LF];
    FeedJoined(held, [CR], [LF]);
    FeedOne(held, CR);
    FeedOne(Step(held, CR), LF);
  }

  lemma {:induction false} ValuesRead(m: Machine, values: Record)
    requires AtField(m) && m.record == [] && values != []
    ensures Holding(Feed(m, JoinValues(values)), m.(record := Escaped(values[..|values| - 1])),
                    EscapeFormula(values[|values| - 1]))
  {
    hide Holding;
    hide Feed;
    hide FormatValue;
    hide EscapeFormula;
    var n := |values| - 1;
    if n == 0 {
      ValueReads(m, values[0]);
      assert m.(record := Escaped(values[..0])) == m;
    } else {
      var front := JoinValues(values[..n]);
      var before := m.(record := Escaped(values[..n - 1]));
      assert values[..n][..n - 1] == values[..n - 1];
      ValuesRead(m, values[..n]);
      CommaEndsField(Feed(m, front), before, EscapeFormula(values[n - 1]));
      assert Escaped(values[..n - 1]) + [EscapeFormula(values[n - 1])] == Escaped(values[..n]);
      FeedJoined(m, front, [COMMA]);
      FeedJoined(m, front + [COMMA], FormatValue(values[n]));
      ValueReads(m.(record := Escaped(values[..n])), values[n]);
      SameHolding(Feed(m, JoinValues(values)), m.(record := Escaped(values[..n])), EscapeFormula(values[n]));
    }
  }

  lemma SameHolding(t: Machine, m: Machine, value: Text)
    requires Holding(t, m, value)
    ensures t.record == m.record && t.out == m.out
  {
  }

  lemma RecordReads(m: Machine, values: Record)
    requires AtField(m) && m.record == [] && values != []
    ensures Feed(m, FormatRecord(values)) == m.(out := m.out + [Escaped(values)])
  {
    hide Holding;
    hide Feed;
    hide JoinValues;
    hide EscapeFormula;
    var n := |values| - 1;
    ValuesRead(m, values);
    FeedJoined(m, JoinValues(values), [CR, LF]);
    NewlineEndsRecord(Feed(m, JoinValues(values)), m.(record := Escaped(values[..n])), EscapeFormula(values[n]));
    assert Escaped(values[..n]) + [EscapeFormula(values[n])] == Escaped(values);
  }

  function AllEscaped(records: seq<Record>): seq<Record> {
    if records == [] then [] else AllEscaped(records[..|records| - 1]) + [Escaped(records[|records| - 1])]
  }

  lemma {:induction false} PrintedReads(records: seq<Record>)
    requires forall i :: 0 <= i < |records| ==> records[i] != []
    ensures Feed(START, Print(records)) == START.(out := AllEscaped(records))
  {
    if records != [] {
      var n := |records| - 1;
      PrintedReads(records[..n]);
      hide Feed;
      hide FormatRecord;
      hide Escaped;
      FeedJoined(START, Print(records[..n]), FormatRecord(records[n]));
      RecordReads(START.(out := AllEscaped(records[..n])), records[n]);
    }
  }

  lemma {:induction false} AllUnescape(records: seq<Record>)
    ensures |AllEscaped(records)| == |records|
    ensures forall i :: 0 <= i < |records| ==> Unescaped(AllEscaped(records)[i]) == records[i]
  {
    if records != [] {
      var last := records[|records| - 1];
      AllUnescape(records[..|records| - 1]);
      forall j | 0 <= j < |last| ensures UnescapeFormula(EscapeFormula(last[j])) == last[j] {
        GuardIsReversible(last[j]);
      }
      assert Unescaped(Escaped(last)) == last;
    }
  }

  // ----- printed text never starts with a mark -----

  predicate Unmarked(t: Text) { t == [] || t[0] != BOM }

  /** A value that starts with the mark is quoted, because trim counts the mark as white space. */
  lemma ValueIsUnmarked(value: Text)
    ensures Unmarked(FormatValue(value))
  {
  }

  lemma {:induction false} PrintedIsUnmarked(records: seq<Record>)
    ensures Unmarked(Print(records))
  {
    if records != [] {
      PrintedIsUnmarked(records[..|records| - 1]);
      JoinedIsUnmarked(records[|records| - 1]);
    }
  }

  lemma {:induction false} JoinedIsUnmarked(values: Record)
    ensures Unmarked(JoinValues(values))
  {
    if |values| == 1 {
      ValueIsUnmarked(values[0]);
    } else if |values| > 1 {
      JoinedIsUnmarked(values[..|values| - 1]);
    }
  }

  /** Any records of at least one cell each, any cells, any cut of the printed text: reading gives the records back. */
  lemma RoundTrip(records: seq<Record>, chunks: seq<Text>)
    requires forall i :: 0 <= i < |records| ==> records[i] != []
    requires Flat(chunks) == Print(records)
    ensures Streamed(chunks).Success? && |Streamed(chunks).value| == |records|
    ensures forall i :: 0 <= i < |records| ==> Unescaped(Streamed(chunks).value[i]) == records[i]
  {
    PrintedIsUnmarked(records);
    ChunkingIsInvisible(chunks);
    PrintedReads(records);
    assert Strip(Print(records)) == Print(records);
    AllUnescape(records);
  }

  // ----- the reader, statement by statement -----

  class CsvRecordReader {
    var mode: Mode
    var field: Text
    var record: Record
    var pendingLf: bool
    var atStart: bool
    var emitted: nat
    ghost var delivered: seq<Record>

    ghost predicate Valid()
      reads this
    {
      emitted == |delivered|
    }

    ghost function Contents(): Machine
      reads this
    {
      Machine(mode, field, record, pendingLf, delivered)
    }

    constructor ()
      ensures Valid() && Contents() == START && atStart
    {
      mode, field, record, pendingLf, atStart, emitted := FieldStart, [], [], false, true, 0;
      delivered := [];
    }

    /** Decoded text in, complete records out. */
    method Push(chunk: Text) returns (records: seq<Record>)
      requires Valid()
      modifies this
      ensures Valid() && !atStart
      ensures Contents() == Feed(old(Contents()), if old(atStart) then Strip(chunk) else chunk)
      ensures delivered == old(delivered) + records
    {
      var text := chunk;
      if atStart {
        if text != [] && text[0] == BOM {
          text := text[1..];
        }
        atStart := false;
      }
      records := [];
      for i := 0 to |text|
        invariant Valid() && !atStart
        invariant Contents() == Feed(old(Contents()), text[..i])
        invariant delivered == old(delivered) + records
      {
        assert text[..i + 1][..i] == text[..i];
        hide Read;
        var c := text[i];
        if pendingLf && c == LF {
          pendingLf := false;
          continue;
        }
        pendingLf := false;
        var ended := Take(c);
        records := records + ended;
      }
      assert text[..|text|] == text;
    }

    /** One unit, by the reader's state; the record it completes, if any. */
    method Take(c: Unit) returns (ended: seq<Record>)
      requires Valid() && !pendingLf
      modifies this
      ensures Valid() && atStart == old(atStart)
      ensures Contents() == Read(old(Contents()), c) && delivered == old(delivered) + ended
    {
      ended := [];
      match mode {
        case FieldStart =>
          if c == QUOTE {
            mode := Quoted;
          } else if c == COMMA {
            record := record + [[]];
          } else if c == CR || c == LF {
            ended := CloseRecord(c);
          } else {
            field, mode := [c], Unquoted;
          }
        case Unquoted =>
          if c == COMMA {
            CloseField();
          } else if c == CR || c == LF {
            ended := CloseRecord(c);
          } else {
            field := field + [c];
          }
        case Quoted =>
          if c == QUOTE {
            mode := AfterQuote;
          } else {
            field := field + [c];
          }
        case AfterQuote =>
          if c == QUOTE {
            field, mode := field + [QUOTE], Quoted;
          } else if c == COMMA {
            CloseField();
          } else if c == CR || c == LF {
            ended := CloseRecord(c);
          } else {
            field, mode := field + [c], Unquoted;
          }
      }
    }

    method CloseField()
      modifies this`record, this`field, this`mode
      ensures Contents() == EndField(old(Contents()))
    {
      record, field, mode := record + [field], [], FieldStart;
    }

    method CloseRecord(c: Unit) returns (ended: seq<Record>)
      requires Valid() && !pendingLf
      modifies this
      ensures Valid() && atStart == old(atStart)
      ensures Contents() == EndRecord(old(Contents()), c) && delivered == old(delivered) + ended
    {
      if c == CR {
        pendingLf := true;
      }
      ended := Flush();
    }

    method Flush() returns (ended: seq<Record>)
      requires Valid()
      modifies this
      ensures Valid() && atStart == old(atStart) && pendingLf == old(pendingLf)
      ensures mode == FieldStart && field == [] && record == []
      ensures ended == [old(record) + [old(field)]] && delivered == old(delivered) + ended
    {
      record := record + [field];
      ended := [record];
      emitted := emitted + 1;
      delivered := delivered + ended;
      field, record, mode := [], [], FieldStart;
    }

    /** Flushes what the last chunk left, or reports the row of an unclosed quote. */
    method End() returns (r: Result<seq<Record>, nat>)
      requires Valid()
      modifies this
      ensures match Finish(old(Contents()))
        case Success(all) => r.Success? && all == old(delivered) + r.value
        case Failure(row) => r == Failure(row)
    {
      if mode == Quoted {
        return Failure(emitted + 1);
      }
      if mode == FieldStart && field == [] && record == [] {
        return Success([]);
      }
      var last := Flush();
      r := Success(last);
    }
  }

  method ParseCsvRecords(text: Text) returns (r: Result<seq<Record>, nat>)
    ensures r == Parse(text)
  {
    var reader := new CsvRecordReader();
    var records := reader.Push(text);
    assert [] + records == records;
    var rest := reader.End();
    r := if rest.Success? then Success(records + rest.value) else rest;
  }

  // ----- the upload route -----

  const MAX_IMPORT_BYTES := 5 * 1024 * 1024
  const MAX_IMPORT_ROWS := 5_000

  /** What arrives in one read: the decoded text, and the bytes it came from. */
  datatype Chunk = Chunk(text: Text, bytes: nat)

  datatype Rejection = FileTooLarge | TooManyRows | InvalidCsv(row: nat)

  function Texts(chunks: seq<Chunk>): (r: seq<Text>)
    ensures |r| == |chunks|
  {
    seq(|chunks|, i requires 0 <= i < |chunks| => chunks[i].text)
  }

  /** The bytes of the first n chunks. */
  function Bytes(chunks: seq<Chunk>, n: nat): nat
    requires n <= |chunks|
  {
    if n == 0 then 0 else Bytes(chunks, n - 1) + chunks[n - 1].bytes
  }

  /** The reader after the first n chunks. */
  function Fed(chunks: seq<Chunk>, n: nat): Machine
    requires n <= |chunks|
  {
    FeedChunks(Texts(chunks)[..n])
  }

  predicate TooLarge(chunks: seq<Chunk>, n: nat)
    requires n <= |chunks|
  {
    Bytes(chunks, n) > MAX_IMPORT_BYTES
  }

  /** The header counts as one more row. */
  predicate TooLong(chunks: seq<Chunk>, n: nat)
    requires n <= |chunks|
  {
    |Fed(chunks, n).out| > MAX_IMPORT_ROWS + 1
  }

  /** The first n chunks are within both caps. */
  predicate Fits(chunks: seq<Chunk>, n: nat)
    requires n <= |chunks|
  {
    !TooLarge(chunks, n) && !TooLong(chunks, n)
  }

  /** Chunk n is the first to pass a cap, and this is the cap named. */
  predicate RefusedAt(chunks: seq<Chunk>, n: nat, e: Rejection) {
    && n < |chunks| && Fits(chunks, n) && !Fits(chunks, n + 1)
    && e == if TooLarge(chunks, n + 1) then FileTooLarge else TooManyRows
  }

  lemma {:induction false} FeedOnlyDelivers(m: Machine, text: Text)
    ensures |m.out| <= |Feed(m, text).out|
  {
    if text != [] {
      FeedOnlyDelivers(m, text[..|text| - 1]);
    }
  }

  /** One more chunk: its bytes are added, its text is read on, and no record is taken back. */
  lemma NextChunk(chunks: seq<Chunk>, n: nat)
    requires n < |chunks|
    ensures Bytes(chunks, n + 1) == Bytes(chunks, n) + chunks[n].bytes
    ensures Fed(chunks, n + 1) == Feed(Fed(chunks, n), if n == 0 then Strip(chunks[n].text) else chunks[n].text)
    ensures |Fed(chunks, n).out| <= |Fed(chunks, n + 1).out|
  {
    assert Texts(chunks)[..n + 1][..n] == Texts(chunks)[..n];
    FeedOnlyDelivers(Fed(chunks, n), if n == 0 then Strip(chunks[n].text) else chunks[n].text);
  }

  /** What has grown too large stays too large. */
  lemma {:induction false} MisfitsStay(chunks: seq<Chunk>, k: nat, n: nat)
    requires k <= n <= |chunks| && !Fits(chunks, k)
    ensures !Fits(chunks, n)
    decreases n
  {
    if k < n {
      MisfitsStay(chunks, k, n - 1);
      NextChunk(chunks, n - 1);
    }
  }

  lemma FirstOverACap(chunks: seq<Chunk>, n: nat)
    requires n < |chunks| && Fits(chunks, n) && !Fits(chunks, n + 1)
    ensures !Fits(chunks, |chunks|)
    ensures RefusedAt(chunks, n, if TooLarge(chunks, n + 1) then FileTooLarge else TooManyRows)
  {
    MisfitsStay(chunks, n + 1, |chunks|);
  }

  /** What the decoder still holds at the end of the body is read without a further check. */
  function WithTail(chunks: seq<Chunk>, tail: Text): seq<Text> { Texts(chunks) + if tail == [] then [] else [tail] }

  lemma TailIsLast(chunks: seq<Chunk>, tail: Text)
    ensures tail == [] ==> FeedChunks(WithTail(chunks, tail)) == Fed(chunks, |chunks|)
    ensures var last := if chunks == [] then Strip(tail) else tail;
      tail != [] ==> FeedChunks(WithTail(chunks, tail)) == Feed(Fed(chunks, |chunks|), last)
  {
    assert Texts(chunks)[..|chunks|] == Texts(chunks);
    if tail == [] {
      assert WithTail(chunks, tail) == Texts(chunks);
    } else {
      assert WithTail(chunks, tail)[..|chunks|] == Texts(chunks);
    }
  }

  /** Completed records, up to the first that is one too many. */
  method TakeRecords(records: seq<Record>, more: seq<Record>) returns (taken: seq<Record>, full: bool)
    requires |records| <= MAX_IMPORT_ROWS + 1
    ensures full <==> |records + more| > MAX_IMPORT_ROWS + 1
    ensures !full ==> taken == records + more
  {
    taken := records;
    for j := 0 to |more|
      invariant taken == records + more[..j] && |taken| <= MAX_IMPORT_ROWS + 1
    {
      taken := taken + [more[j]];
      if |taken| > MAX_IMPORT_ROWS + 1 {
        return taken, true;
      }
    }
    full := false;
  }

  /** The loop over the body: bytes are counted as they arrive, and rows as they complete. */
  method ReadChunks(reader: CsvRecordReader, chunks: seq<Chunk>) returns (r: Result<seq<Record>, Rejection>)
    requires reader.Valid() && reader.atStart && reader.Contents() == START && reader.delivered == []
    modifies reader
    ensures Fits(chunks, |chunks|) ==>
      && r == Success(reader.delivered) && reader.Valid() && reader.atStart == (chunks == [])
      && reader.Contents() == Fed(chunks, |chunks|)
    ensures !Fits(chunks, |chunks|) ==> r.Failure? && exists n :: RefusedAt(chunks, n, r.error)
  {
    assert Fed(chunks, 0) == START && Bytes(chunks, 0) == 0;
    hide Fed;
    hide Feed;
    hide Strip;
    hide Bytes;
    hide RefusedAt;
    var records: seq<Record>, bytes := [], 0;
    for i := 0 to |chunks|
      invariant reader.Valid() && reader.atStart == (i == 0) && reader.delivered == records
      invariant reader.Contents() == Fed(chunks, i) && bytes == Bytes(chunks, i) && Fits(chunks, i)
    {
      NextChunk(chunks, i);
      bytes := bytes + chunks[i].bytes;
      if bytes > MAX_IMPORT_BYTES {
        FirstOverACap(chunks, i);
        return Failure(FileTooLarge);
      }
      var more := reader.Push(chunks[i].text);
      var full: bool;
      records, full := TakeRecords(records, more);
      if full {
        FirstOverACap(chunks, i);
        return Failure(TooManyRows);
      }
    }
    r := Success(records);
  }

  /**
   * The route: an upload is refused at the first chunk that passes a cap, bytes before rows, and otherwise read as a
   * stream, with what the decoder still held at the end.
   */
  method ReadRecords(chunks: seq<Chunk>, tail: Text) returns (r: Result<seq<Record>, Rejection>)
    ensures Fits(chunks, |chunks|) ==>
      match Streamed(WithTail(chunks, tail))
      case Success(records) => r == Success(records)
      case Failure(row) => r == Failure(InvalidCsv(row))
    ensures !Fits(chunks, |chunks|) ==> r.Failure? && exists n :: RefusedAt(chunks, n, r.error)
  {
    hide FeedChunks;
    hide Fed;
    hide Feed;
    hide Strip;
    hide Fits;
    hide RefusedAt;
    hide Finish;
    hide WithTail;
    var reader := new CsvRecordReader();
    var body := ReadChunks(reader, chunks);
    if body.Failure? {
      return body;
    }
    var records := body.value;
    TailIsLast(chunks, tail);
    if tail != [] {
      var more := reader.Push(tail);
      records := records + more;
    }
    var rest := reader.End();
    r := match rest
    case Success(last) => Success(records + last)
    case Failure(row) => Failure(InvalidCsv(row));
  }

  /** replace(/"/g, '""'), then the quotes around it. */
  method FormatCsvValue(value: Text) returns (text: Text)
    ensures text == FormatValue(value)
  {
    var guarded := EscapeFormula(value);
    if !NeedsQuotes(guarded) {
      return guarded;
    }
    var body: Text := [];
    for i := 0 to |guarded|
      invariant body == Doubled(guarded[..i])
    {
      assert guarded[..i + 1][..i] == guarded[..i];
      body := body + if guarded[i] == QUOTE then [QUOTE, QUOTE] else [guarded[i]];
    }
    assert guarded[..|guarded|] == guarded;
    text := [QUOTE] + body + [QUOTE];
  }
}
