/** The dry-run export and the final report. */
module Reports {
  import opened Items
  import opened Csv
  import opened DecimalText

  function StateName(state: ItemState): string {
    match state
    case Discovered => "DISCOVERED"
    case Eligible => "ELIGIBLE"
    case PendingOwnerRequired => "PENDING_OWNER_REQUIRED"
    case PendingOwnerCreated => "PENDING_OWNER_CREATED"
    case AcceptRequired => "ACCEPT_REQUIRED"
    case Accepting => "ACCEPTING"
    case Transferred => "TRANSFERRED"
    case Verifying => "VERIFYING"
    case Verified => "VERIFIED"
    case SkippedAlreadyOwnedByTarget => "SKIPPED_ALREADY_OWNED_BY_TARGET"
    case SkippedNotOwnedBySource => "SKIPPED_NOT_OWNED_BY_SOURCE"
    case SkippedSharedDrive => "SKIPPED_SHARED_DRIVE"
    case SkippedShortcutTarget => "SKIPPED_SHORTCUT_TARGET"
    case SkippedTrashed => "SKIPPED_TRASHED"
    case SkippedIneligible => "SKIPPED_INELIGIBLE"
    case RetryableFailed => "RETRYABLE_FAILED"
    case PermanentFailed => "PERMANENT_FAILED"
    case Cancelled => "CANCELLED"
  }

  /** The state a name stands for, as the store reads it. */
  function StateNamed(name: string): Option<ItemState> {
    if name == "DISCOVERED" then Some(ItemState.Discovered)
    else if name == "ELIGIBLE" then Some(ItemState.Eligible)
    else if name == "PENDING_OWNER_REQUIRED" then Some(ItemState.PendingOwnerRequired)
    else if name == "PENDING_OWNER_CREATED" then Some(ItemState.PendingOwnerCreated)
    else if name == "ACCEPT_REQUIRED" then Some(ItemState.AcceptRequired)
    else if name == "ACCEPTING" then Some(ItemState.Accepting)
    else if name == "TRANSFERRED" then Some(ItemState.Transferred)
    else if name == "VERIFYING" then Some(ItemState.Verifying)
    else if name == "VERIFIED" then Some(ItemState.Verified)
    else if name == "SKIPPED_ALREADY_OWNED_BY_TARGET" then Some(ItemState.SkippedAlreadyOwnedByTarget)
    else if name == "SKIPPED_NOT_OWNED_BY_SOURCE" then Some(ItemState.SkippedNotOwnedBySource)
    else if name == "SKIPPED_SHARED_DRIVE" then Some(ItemState.SkippedSharedDrive)
    else if name == "SKIPPED_SHORTCUT_TARGET" then Some(ItemState.SkippedShortcutTarget)
    else if name == "SKIPPED_TRASHED" then Some(ItemState.SkippedTrashed)
    else if name == "SKIPPED_INELIGIBLE" then Some(ItemState.SkippedIneligible)
    else if name == "RETRYABLE_FAILED" then Some(ItemState.RetryableFailed)
    else if name == "PERMANENT_FAILED" then Some(ItemState.PermanentFailed)
    else if name == "CANCELLED" then Some(ItemState.Cancelled)
    else None
  }

  lemma ActiveNameReadsBack(state: ItemState)
    requires state.IsTransferActive()
    ensures StateNamed(StateName(state)) == Some(state)
  {
  }

  lemma SkippedOwnerNameReadsBack(state: ItemState)
    requires state.SkippedAlreadyOwnedByTarget? || state.SkippedNotOwnedBySource? || state.SkippedSharedDrive?
    ensures StateNamed(StateName(state)) == Some(state)
  {
  }

  lemma SkippedKindNameReadsBack(state: ItemState)
    requires state.SkippedShortcutTarget? || state.SkippedTrashed? || state.SkippedIneligible?
    ensures StateNamed(StateName(state)) == Some(state)
  {
  }

  lemma FinalNameReadsBack(state: ItemState)
    requires !state.IsTransferActive() && !state.IsSkipped()
    ensures StateNamed(StateName(state)) == Some(state)
  {
  }

  /** Every state is read back from its name. */
  lemma StateNameReadsBack(state: ItemState)
    ensures StateNamed(StateName(state)) == Some(state)
  {
    if state.IsTransferActive() {
      ActiveNameReadsBack(state);
    } else if state.SkippedAlreadyOwnedByTarget? || state.SkippedNotOwnedBySource? || state.SkippedSharedDrive? {
      SkippedOwnerNameReadsBack(state);
    } else if state.IsSkipped() {
      SkippedKindNameReadsBack(state);
    } else {
      FinalNameReadsBack(state);
    }
  }

  function OptionalInt(value: Option<int>): string {
    match value
    case None => ""
    case Some(i) => IntText(i)
  }

  function OrEmpty(value: Option<string>): string {
    match value
    case None => ""
    case Some(s) => s
  }

  // ---------------------------------------------------------------- dry-run export

  datatype DryRunRow = DryRunRow(
    fileId: string, name: string, mimeType: string, depth: int, state: string, quotaBytesUsed: Option<int>)

  function Columns(a: string, b: string, c: string, d: string, e: string, f: string): seq<string> {
    [a, b, c, d, e, f]
  }

  function ColumnLine(a: string, b: string, c: string, d: string, e: string, f: string): string {
    a + "," + b + "," + c + "," + d + "," + e + "," + f + "\n"
  }

  function DryRunColumns(): seq<string> {
    Columns("file_id", "name", "mime_type", "depth", "state", "quota_bytes_used")
  }

  function DryRunHeader(): string {
    ColumnLine("file_id", "name", "mime_type", "depth", "state", "quota_bytes_used")
  }

  /** What a reader gets for one row: text guarded against formulas, the depth as it is. */
  function DryRunValues(row: DryRunRow): seq<string> {
    [Guarded(row.fileId), Guarded(row.name), Guarded(row.mimeType), IntText(row.depth), Guarded(row.state),
     Guarded(OptionalInt(row.quotaBytesUsed))]
  }

  /** The column of this name holds this value. */
  predicate Holds(header: seq<string>, values: seq<string>, name: string, value: string) {
    |values| == |header| && exists k :: 0 <= k < |header| && header[k] == name && values[k] == value
  }

  predicate HoldsInt(header: seq<string>, values: seq<string>, name: string, value: int) {
    |values| == |header| && exists k :: 0 <= k < |header| && header[k] == name && StandsForInt(values[k], value)
  }

  /** Under each heading a reader finds what it names. */
  lemma DryRunColumnsHold(row: DryRunRow)
    ensures
      var h, v := DryRunColumns(), DryRunValues(row);
      && Holds(h, v, "file_id", Guarded(row.fileId)) && Holds(h, v, "name", Guarded(row.name))
      && Holds(h, v, "mime_type", Guarded(row.mimeType)) && Holds(h, v, "state", Guarded(row.state))
  {
    var h, v := DryRunColumns(), DryRunValues(row);
    assert h[0] == "file_id" && v[0] == Guarded(row.fileId) && h[1] == "name" && v[1] == Guarded(row.name);
    assert h[2] == "mime_type" && v[2] == Guarded(row.mimeType) && h[4] == "state" && v[4] == Guarded(row.state);
  }

  /** Numbers are found there as text that stands for them, a negative size but for its apostrophe. */
  lemma DryRunNumbersHold(row: DryRunRow)
    ensures
      var h, v := DryRunColumns(), DryRunValues(row);
      && HoldsInt(h, v, "depth", row.depth)
      && match row.quotaBytesUsed
         case None => Holds(h, v, "quota_bytes_used", "")
         case Some(n) => n >= 0 ==> HoldsInt(h, v, "quota_bytes_used", n)
  {
    var h, v := DryRunColumns(), DryRunValues(row);
    IntReadsBack(row.depth);
    assert h[3] == "depth" && v[3] == IntText(row.depth) && h[5] == "quota_bytes_used";
    if row.quotaBytesUsed.Some? && row.quotaBytesUsed.value >= 0 {
      SizeIsNoFormula(row.quotaBytesUsed.value);
      assert v[5] == IntText(row.quotaBytesUsed.value);
    }
  }

  lemma SizeIsNoFormula(n: nat)
    ensures Guarded(IntText(n)) == IntText(n) && StandsForInt(IntText(n), n)
  {
    IntReadsBack(n);
    DecimalIsDigits(n);
    DecimalReads(n);
    assert Decimal(n)[0] in Decimal(n);
  }

  function DryRunCells(row: DryRunRow): seq<Cell> {
    [Escaped(row.fileId), Escaped(row.name), Escaped(row.mimeType), Plain(IntText(row.depth)), Escaped(row.state),
     Escaped(OptionalInt(row.quotaBytesUsed))]
  }

  function PlainCells(values: seq<string>): (r: seq<Cell>)
    ensures |r| == |values| && forall k :: 0 <= k < |r| ==> r[k] == Plain(values[k])
  {
    if values == [] then [] else [Plain(values[0])] + PlainCells(values[1..])
  }

  function AllCells(rows: seq<DryRunRow>): (r: seq<seq<Cell>>)
    ensures |r| == |rows| && forall k :: 0 <= k < |r| ==> r[k] == DryRunCells(rows[k])
  {
    if rows == [] then [] else AllCells(rows[..|rows| - 1]) + [DryRunCells(rows[|rows| - 1])]
  }

  function AllValues(rows: seq<DryRunRow>): (r: seq<seq<string>>)
    ensures |r| == |rows| && forall k :: 0 <= k < |r| ==> r[k] == DryRunValues(rows[k])
  {
    if rows == [] then [] else AllValues(rows[..|rows| - 1]) + [DryRunValues(rows[|rows| - 1])]
  }

  lemma {:induction false} CellsGiveValues(cells: seq<Cell>)
    ensures |RowValues(cells)| == |cells|
    ensures forall k :: 0 <= k < |cells| ==> RowValues(cells)[k] == CellValue(cells[k])
    decreases |cells|
  {
    if cells != [] { CellsGiveValues(cells[1..]); }
  }

  lemma DryRunReadsBack(row: DryRunRow)
    ensures RowOk(DryRunCells(row)) && RowValues(DryRunCells(row)) == DryRunValues(row)
  {
    CellsGiveValues(DryRunCells(row));
    IntTextIsPlain(row.depth);
  }

  lemma IntTextIsPlain(i: int)
    ensures IsPlain(IntText(i))
  {
    if i >= 0 { DecimalIsDigits(i); } else { DecimalIsDigits(-i); }
  }

  method RenderDryRunRow(row: DryRunRow) returns (line: string)
    ensures line == RowText(DryRunCells(row))
  {
    var quota := OptionalInt(row.quotaBytesUsed);
    line := CsvCell(row.fileId);
    line := line + "," + CsvCell(row.name);
    line := line + "," + CsvCell(row.mimeType);
    line := line + "," + IntText(row.depth);
    line := line + "," + CsvCell(row.state);
    line := line + "," + CsvCell(quota);
    line := line + "\n";
    SixCells(Escaped(row.fileId), Escaped(row.name), Escaped(row.mimeType), Plain(IntText(row.depth)),
             Escaped(row.state), Escaped(quota));
  }

  /** Six names of columns, joined by commas, are a row of plain cells. */
  lemma ColumnLineIsARow(a: string, b: string, c: string, d: string, e: string, f: string)
    ensures RowText(PlainCells(Columns(a, b, c, d, e, f))) == ColumnLine(a, b, c, d, e, f)
    ensures RowValues(PlainCells(Columns(a, b, c, d, e, f))) == Columns(a, b, c, d, e, f)
  {
    SixCells(Plain(a), Plain(b), Plain(c), Plain(d), Plain(e), Plain(f));
    var cells := [Plain(a), Plain(b), Plain(c), Plain(d), Plain(e), Plain(f)];
    assert cells == PlainCells(Columns(a, b, c, d, e, f));
    CellsGiveValues(cells);
  }

  lemma HeaderIsARow()
    ensures RowText(PlainCells(DryRunColumns())) == DryRunHeader()
    ensures RowValues(PlainCells(DryRunColumns())) == DryRunColumns()
  {
    ColumnLineIsARow("file_id", "name", "mime_type", "depth", "state", "quota_bytes_used");
  }

  lemma FirstNamesArePlain()
    ensures IsPlain("file_id") && IsPlain("name") && IsPlain("mime_type")
  {
  }

  lemma LastNamesArePlain()
    ensures IsPlain("depth") && IsPlain("state") && IsPlain("quota_bytes_used")
  {
  }

  lemma PlainNamesAreARow(names: seq<string>)
    requires names != [] && forall k :: 0 <= k < |names| ==> IsPlain(names[k])
    ensures RowOk(PlainCells(names))
  {
  }

  lemma HeaderIsOk()
    ensures RowOk(PlainCells(DryRunColumns()))
  {
    FirstNamesArePlain();
    LastNamesArePlain();
    PlainNamesAreARow(DryRunColumns());
  }

  lemma OneMoreRow(before: seq<seq<Cell>>, rows: seq<DryRunRow>, i: nat)
    requires i < |rows|
    ensures FileText(before + AllCells(rows[..i + 1])) ==
            FileText(before + AllCells(rows[..i])) + RowText(DryRunCells(rows[i]))
  {
    assert rows[..i + 1][..i] == rows[..i];
    assert before + AllCells(rows[..i + 1]) == before + AllCells(rows[..i]) + [DryRunCells(rows[i])];
    FileTextAppend(before + AllCells(rows[..i]), DryRunCells(rows[i]));
  }

  method RenderRows(start: string, rows: seq<DryRunRow>, ghost before: seq<seq<Cell>>) returns (out: string)
    requires start == FileText(before)
    ensures out == FileText(before + AllCells(rows))
  {
    out := start;
    assert before + AllCells(rows[..0]) == before;
    for i := 0 to |rows|
      invariant out == FileText(before + AllCells(rows[..i]))
    {
      var line := RenderDryRunRow(rows[i]);
      out := out + line;
      OneMoreRow(before, rows, i);
    }
    assert rows[..|rows|] == rows;
  }

  /** The export of any items, read by the rules of RFC 4180, gives back the header and every value, text guarded
      against formulas and the depth verbatim. */
  method RenderItemsCsv(rows: seq<DryRunRow>) returns (out: string)
    ensures ReadFile(out) == Some([DryRunColumns()] + AllValues(rows))
  {
    HeaderIsARow();
    SingleRowFile(PlainCells(DryRunColumns()));
    out := RenderRows(DryRunHeader(), rows, [PlainCells(DryRunColumns())]);
    WrittenReadsBack(rows, [PlainCells(DryRunColumns())] + AllCells(rows));
  }

  lemma SingleRowFile(cells: seq<Cell>)
    ensures FileText([cells]) == RowText(cells)
  {
    assert [cells][1..] == [];
    assert RowText(cells) + "" == RowText(cells);
  }

  lemma WrittenReadsBack(rows: seq<DryRunRow>, written: seq<seq<Cell>>)
    requires written == [PlainCells(DryRunColumns())] + AllCells(rows)
    ensures ReadFile(FileText(written)) == Some([DryRunColumns()] + AllValues(rows))
  {
    HeaderIsARow();
    HeaderIsOk();
    RowsReadBack(rows);
    assert written[1..] == AllCells(rows);
    forall k | 0 <= k < |written| ensures RowOk(written[k]) {
      assert k > 0 ==> written[k] == AllCells(rows)[k - 1];
    }
    FileReadsBack(written);
  }

  lemma {:induction false} RowsReadBack(rows: seq<DryRunRow>)
    ensures FileValues(AllCells(rows)) == AllValues(rows)
    ensures forall k :: 0 <= k < |rows| ==> RowOk(AllCells(rows)[k])
    decreases |rows|
  {
    if rows != [] {
      var rest, last := rows[..|rows| - 1], rows[|rows| - 1];
      RowsReadBack(rest);
      DryRunReadsBack(last);
      FileValuesAppend(AllCells(rest), DryRunCells(last));
    }
  }
}
