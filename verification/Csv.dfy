/** The CSV the exports write, and a reader for it by section 2 of RFC 4180 with LF record ends. */
module Csv {
  import opened Items

  // ---------------------------------------------------------------- writing

  predicate IsFormulaTrigger(c: char) {
    c == '=' || c == '+' || c == '-' || c == '@' || c == '\t' || c == '\r' || c == '\n'
  }

  predicate NeedsQuotes(c: char) {
    c == '"' || c == ',' || c == '\n' || c == '\r'
  }

  predicate IsFormula(value: string) {
    value != [] && IsFormulaTrigger(value[0])
  }

  function Doubled(value: string): string {
    if value == [] then []
    else (if value[0] == '"' then "\"\"" else [value[0]]) + Doubled(value[1..])
  }

  function CsvCell(value: string): string {
    var escaped := (if IsFormula(value) then "'" else "") + Doubled(value);
    if IsFormula(value) || exists c :: c in escaped && NeedsQuotes(c) then "\"" + escaped + "\"" else escaped
  }

  /** A cell of a row: escaped, or text written as it is. */
  datatype Cell = Escaped(value: string) | Plain(text: string)

  function CellText(cell: Cell): string {
    match cell
    case Escaped(value) => CsvCell(value)
    case Plain(text) => text
  }

  function RowBody(cells: seq<Cell>): string {
    if cells == [] then ""
    else if |cells| == 1 then CellText(cells[0])
    else CellText(cells[0]) + ("," + RowBody(cells[1..]))
  }

  function RowText(cells: seq<Cell>): string {
    RowBody(cells) + "\n"
  }

  function FileText(rows: seq<seq<Cell>>): string {
    if rows == [] then "" else RowText(rows[0]) + FileText(rows[1..])
  }

  // ---------------------------------------------------------------- reading

  /** A field and what follows it. */
  datatype Read = Read(field: string, rest: string)

  function Prepend(c: char, r: Option<Read>): Option<Read> {
    match r
    case None => None
    case Some(Read(field, rest)) => Some(Read([c] + field, rest))
  }

  /** The rest of a quoted field: a doubled quote is a quote, a single one ends it. */
  function ReadQuoted(s: string): (r: Option<Read>)
    ensures r.Some? ==> |r.value.rest| < |s|
    decreases |s|
  {
    if s == [] then None
    else if s[0] != '"' then Prepend(s[0], ReadQuoted(s[1..]))
    else if |s| > 1 && s[1] == '"' then Prepend('"', ReadQuoted(s[2..]))
    else Some(Read("", s[1..]))
  }

  /** A field without quotes ends before a comma or the end of the record. */
  function ReadBare(s: string): (r: Option<Read>)
    ensures r.Some? ==> |r.value.rest| <= |s|
    decreases |s|
  {
    if s == [] || s[0] == ',' || s[0] == '\n' then Some(Read("", s))
    else if s[0] == '"' || s[0] == '\r' then None
    else Prepend(s[0], ReadBare(s[1..]))
  }

  function ReadField(s: string): (r: Option<Read>)
    ensures r.Some? ==> |r.value.rest| <= |s|
  {
    if s != [] && s[0] == '"' then ReadQuoted(s[1..]) else ReadBare(s)
  }

  datatype Record = Record(fields: seq<string>, rest: string)

  function ReadRecord(s: string): (r: Option<Record>)
    ensures r.Some? ==> |r.value.rest| < |s|
    decreases |s|
  {
    match ReadField(s)
    case None => None
    case Some(Read(field, rest)) =>
      if rest == [] then None
      else if rest[0] == '\n' then Some(Record([field], rest[1..]))
      else if rest[0] == ',' then
        (match ReadRecord(rest[1..])
         case None => None
         case Some(Record(fields, more)) => Some(Record([field] + fields, more)))
      else None
  }

  function ReadFile(s: string): Option<seq<seq<string>>>
    decreases |s|
  {
    if s == [] then Some([])
    else
      match ReadRecord(s)
      case None => None
      case Some(Record(fields, rest)) =>
        (match ReadFile(rest)
         case None => None
         case Some(records) => Some([fields] + records))
  }

  // ---------------------------------------------------------------- round trip

  /** The value read back: the value written, after an apostrophe exactly when it could be taken for a formula. */
  function Guarded(value: string): string {
    if IsFormula(value) then "'" + value else value
  }

  function CellValue(cell: Cell): string {
    match cell
    case Escaped(value) => Guarded(value)
    case Plain(text) => text
  }

  /** Text that needs no escaping. */
  predicate IsPlain(text: string) {
    forall c :: c in text ==> !NeedsQuotes(c)
  }

  predicate WellFormed(cell: Cell) {
    cell.Plain? ==> IsPlain(cell.text)
  }

  lemma ReadQuotedChar(c: char, s: string)
    requires c != '"'
    ensures ReadQuoted([c] + s) == Prepend(c, ReadQuoted(s))
  {
    assert ([c] + s)[1..] == s;
  }

  lemma ReadQuotedPair(s: string)
    ensures ReadQuoted("\"\"" + s) == Prepend('"', ReadQuoted(s))
  {
    assert ("\"\"" + s)[2..] == s;
  }

  lemma ReadQuotedEnd(rest: string)
    requires rest == [] || rest[0] != '"'
    ensures ReadQuoted("\"" + rest) == Some(Read("", rest))
  {
    assert ("\"" + rest)[1..] == rest;
  }

  lemma DoubledSplits(value: string, tail: string)
    requires value != []
    ensures
      Doubled(value) + tail == (if value[0] == '"' then "\"\"" else [value[0]]) + (Doubled(value[1..]) + tail)
  {
  }

  lemma {:induction false} DoubledReadsBack(value: string, rest: string)
    requires rest == [] || rest[0] != '"'
    ensures ReadQuoted(Doubled(value) + ("\"" + rest)) == Some(Read(value, rest))
    decreases |value|
  {
    var tail := "\"" + rest;
    if value == [] {
      assert Doubled(value) + tail == tail;
      ReadQuotedEnd(rest);
    } else {
      var more := Doubled(value[1..]) + tail;
      DoubledReadsBack(value[1..], rest);
      assert value == [value[0]] + value[1..];
      DoubledSplits(value, tail);
      if value[0] == '"' { ReadQuotedPair(more); } else { ReadQuotedChar(value[0], more); }
    }
  }

  lemma {:induction false} PlainReadsBack(text: string, rest: string)
    requires IsPlain(text) && rest != [] && (rest[0] == ',' || rest[0] == '\n')
    ensures ReadBare(text + rest) == Some(Read(text, rest))
    decreases |text|
  {
    if text == [] {
      assert text + rest == rest;
    } else {
      PlainReadsBack(text[1..], rest);
      assert (text + rest)[1..] == text[1..] + rest;
      assert text == [text[0]] + text[1..] && text[0] in text;
    }
  }

  lemma {:induction false} DoubledKeepsPlain(value: string)
    ensures IsPlain(Doubled(value)) ==> Doubled(value) == value && IsPlain(value)
    decreases |value|
  {
    if value != [] {
      DoubledKeepsPlain(value[1..]);
      var first := if value[0] == '"' then "\"\"" else [value[0]];
      assert Doubled(value) == first + Doubled(value[1..]);
      assert first[0] in Doubled(value);
      assert forall c :: c in Doubled(value[1..]) ==> c in Doubled(value);
      assert value == [value[0]] + value[1..];
    }
  }

  lemma QuoteSplits(escaped: string, rest: string)
    ensures
      var whole := "\"" + escaped + "\"" + rest;
      whole[0] == '"' && whole[1..] == escaped + ("\"" + rest)
  {
  }

  lemma QuotedCellReadsBack(value: string, escaped: string, rest: string)
    requires escaped == Doubled(value) && (rest == [] || rest[0] != '"')
    ensures ReadField("\"" + escaped + "\"" + rest) == Some(Read(value, rest))
  {
    DoubledReadsBack(value, rest);
    QuoteSplits(Doubled(value), rest);
  }

  predicate IsQuoted(value: string) {
    IsFormula(value) || exists c :: c in Doubled(value) && NeedsQuotes(c)
  }

  lemma GuardedIsDoubled(value: string)
    ensures (if IsFormula(value) then "'" else "") + Doubled(value) == Doubled(Guarded(value))
  {
    if IsFormula(value) {
      assert ("'" + value)[1..] == value;
    } else {
      assert "" + Doubled(value) == Doubled(value);
    }
  }

  lemma QuotedText(value: string)
    requires IsQuoted(value)
    ensures CsvCell(value) == "\"" + Doubled(Guarded(value)) + "\""
  {
    GuardedIsDoubled(value);
    var escaped := (if IsFormula(value) then "'" else "") + Doubled(value);
    assert IsFormula(value) || exists c :: c in escaped && NeedsQuotes(c);
  }

  lemma UnquotedText(value: string)
    requires !IsQuoted(value)
    ensures CsvCell(value) == value == Guarded(value) && forall c :: c in value ==> !NeedsQuotes(c)
  {
    assert "" + Doubled(value) == Doubled(value);
    DoubledKeepsPlain(value);
  }

  /** A value as a spreadsheet may safely show it: as it was written, or after an apostrophe exactly when it would
      otherwise begin a formula. */
  predicate SafeFor(value: string, shown: string) {
    && (shown == value || shown == "'" + value)
    && (shown == value <==> value == "" || value[0] !in {'=', '+', '-', '@', '\t', '\r', '\n'})
  }

  lemma GuardedIsSafe(value: string)
    ensures SafeFor(value, Guarded(value))
    ensures Guarded(value) != "" ==> Guarded(value)[0] !in {'=', '+', '-', '@', '\t', '\r', '\n'}
  {
    if IsFormula(value) { assert |Guarded(value)| == |value| + 1; }
  }

  /** Every cell is read back as its guarded value, whatever characters it holds. */
  lemma CellReadsBack(cell: Cell, rest: string)
    requires WellFormed(cell) && rest != [] && (rest[0] == ',' || rest[0] == '\n')
    ensures ReadField(CellText(cell) + rest) == Some(Read(CellValue(cell), rest))
    ensures cell.Escaped? ==> SafeFor(cell.value, CellValue(cell))
  {
    if cell.Escaped? { GuardedIsSafe(cell.value); }
    match cell
    case Plain(text) =>
      PlainReadsBack(text, rest);
      assert text != [] ==> text[0] in text;
    case Escaped(value) =>
      if IsQuoted(value) {
        QuotedText(value);
        QuotedCellReadsBack(Guarded(value), Doubled(Guarded(value)), rest);
      } else {
        UnquotedText(value);
        PlainReadsBack(value, rest);
        assert value != [] ==> value[0] in value;
      }
  }

  function RowValues(cells: seq<Cell>): seq<string> {
    if cells == [] then [] else [CellValue(cells[0])] + RowValues(cells[1..])
  }

  function FileValues(rows: seq<seq<Cell>>): seq<seq<string>> {
    if rows == [] then [] else [RowValues(rows[0])] + FileValues(rows[1..])
  }

  predicate RowOk(cells: seq<Cell>) {
    cells != [] && forall k :: 0 <= k < |cells| ==> WellFormed(cells[k])
  }

  lemma ReadRecordEnd(s: string, field: string, rest: string)
    requires ReadField(s) == Some(Read(field, "\n" + rest))
    ensures ReadRecord(s) == Some(Record([field], rest))
  {
    assert ("\n" + rest)[1..] == rest;
  }

  lemma ReadRecordMore(s: string, field: string, more: string, fields: seq<string>, rest: string)
    requires ReadField(s) == Some(Read(field, "," + more)) && ReadRecord(more) == Some(Record(fields, rest))
    ensures ReadRecord(s) == Some(Record([field] + fields, rest))
  {
    assert ("," + more)[1..] == more;
  }

  lemma RowSplits(cells: seq<Cell>, rest: string)
    requires cells != []
    ensures
      RowText(cells) + rest ==
        CellText(cells[0]) + (if |cells| == 1 then "\n" + rest else "," + (RowText(cells[1..]) + rest))
  {
  }

  lemma {:induction false} RowReadsBack(cells: seq<Cell>, rest: string)
    requires RowOk(cells)
    ensures ReadRecord(RowText(cells) + rest) == Some(Record(RowValues(cells), rest))
    decreases |cells|
  {
    var whole := RowText(cells) + rest;
    RowSplits(cells, rest);
    if |cells| == 1 {
      CellReadsBack(cells[0], "\n" + rest);
      ReadRecordEnd(whole, CellValue(cells[0]), rest);
      assert cells[1..] == [];
      assert RowValues(cells) == [CellValue(cells[0])];
    } else {
      var more := RowText(cells[1..]) + rest;
      CellReadsBack(cells[0], "," + more);
      RowReadsBack(cells[1..], rest);
      ReadRecordMore(whole, CellValue(cells[0]), more, RowValues(cells[1..]), rest);
    }
  }

  /** Every file written is read back row by row and cell by cell. */
  lemma {:induction false} FileReadsBack(rows: seq<seq<Cell>>)
    requires forall k :: 0 <= k < |rows| ==> RowOk(rows[k])
    ensures ReadFile(FileText(rows)) == Some(FileValues(rows))
    decreases |rows|
  {
    if rows != [] {
      RowReadsBack(rows[0], FileText(rows[1..]));
      FileReadsBack(rows[1..]);
    }
  }

  lemma {:induction false} FileTextAppend(rows: seq<seq<Cell>>, row: seq<Cell>)
    ensures FileText(rows + [row]) == FileText(rows) + RowText(row)
    decreases |rows|
  {
    if rows == [] {
      assert (rows + [row])[1..] == [];
    } else {
      FileTextAppend(rows[1..], row);
      assert (rows + [row])[1..] == rows[1..] + [row];
    }
  }

  lemma {:induction false} RowBodyAppend(cells: seq<Cell>, cell: Cell)
    requires cells != []
    ensures RowBody(cells + [cell]) == RowBody(cells) + "," + CellText(cell)
    decreases |cells|
  {
    var all := cells + [cell];
    assert all[1..] == cells[1..] + [cell];
    if |cells| > 1 { RowBodyAppend(cells[1..], cell); }
  }

  /** Six cells, joined by commas. */
  lemma SixCells(a: Cell, b: Cell, c: Cell, d: Cell, e: Cell, f: Cell)
    ensures RowText([a, b, c, d, e, f]) ==
            CellText(a) + "," + CellText(b) + "," + CellText(c) + "," + CellText(d) + "," + CellText(e) + ","
            + CellText(f) + "\n"
  {
    RowBodyAppend([a], b);
    RowBodyAppend([a] + [b], c);
    RowBodyAppend([a] + [b] + [c], d);
    RowBodyAppend([a] + [b] + [c] + [d], e);
    RowBodyAppend([a] + [b] + [c] + [d] + [e], f);
    assert [a] + [b] + [c] + [d] + [e] + [f] == [a, b, c, d, e, f];
  }

  lemma TailOfAppended<T>(s: seq<T>, t: T)
    requires s != []
    ensures (s + [t])[1..] == s[1..] + [t] && (s + [t])[0] == s[0] && s + [t] != []
  {
  }

  lemma {:induction false} FileValuesAppend(rows: seq<seq<Cell>>, row: seq<Cell>)
    ensures FileValues(rows + [row]) == FileValues(rows) + [RowValues(row)]
    decreases |rows|
  {
    if rows == [] {
      assert rows + [row] == [row] && [row][1..] == [];
    } else {
      TailOfAppended(rows, row);
      FileValuesAppend(rows[1..], row);
    }
  }
}
