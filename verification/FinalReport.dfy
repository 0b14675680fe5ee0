/** The final report of a job: its counts, and its rendering as CSV or as tab-separated text. */
module FinalReport {
  import opened Items
  import opened Csv
  import opened DecimalText
  import opened Reports
  import opened Splitting

  datatype ReportItem = ReportItem(
    fileId: string,
    name: string,
    mimeType: string,
    depth: int,
    quotaBytesUsed: Option<int>,
    originalParentIds: seq<string>,
    state: ItemState,
    errorCode: Option<string>,
    errorReason: Option<string>,
    errorMessage: Option<string>,
    transferredAt: Option<string>,
    verifiedAt: Option<string>
  )

  datatype Pair = Pair(name: string, value: string)

  datatype Snapshot = Snapshot(
    jobId: string,
    status: string,
    sourceEmail: string,
    sourceDisplayName: string,
    targetEmail: string,
    targetDisplayName: string,
    createdAt: string,
    startedAt: Option<string>,
    completedAt: Option<string>,
    lastError: Option<string>,
    roots: seq<Pair>,
    items: seq<ReportItem>
  )

  // ---------------------------------------------------------------- counts

  datatype Counts = Counts(total: nat, verified: nat, failed: nat, cancelled: nat, skipped: nat, unfinished: nat)

  predicate IsFailedState(state: ItemState) {
    state.RetryableFailed? || state.PermanentFailed?
  }

  predicate IsUnfinished(state: ItemState) {
    !state.IsTerminal() && !state.RetryableFailed?
  }

  /** How many items have a state of some kind. */
  function HowMany(kind: ItemState -> bool, items: seq<ReportItem>): (n: nat)
    ensures n <= |items|
    ensures n == 0 <==> forall k :: 0 <= k < |items| ==> !kind(items[k].state)
  {
    if items == [] then 0
    else HowMany(kind, items[..|items| - 1]) + if kind(items[|items| - 1].state) then 1 else 0
  }

  predicate IsVerified(state: ItemState) {
    state.Verified?
  }

  predicate IsCancelled(state: ItemState) {
    state.Cancelled?
  }

  predicate IsSkippedState(state: ItemState) {
    state.IsSkipped()
  }

  predicate AreCounts(c: Counts, items: seq<ReportItem>) {
    && c.total == |items| == c.verified + c.failed + c.cancelled + c.skipped + c.unfinished
    && c.verified == HowMany(IsVerified, items) && c.failed == HowMany(IsFailedState, items)
    && c.cancelled == HowMany(IsCancelled, items) && c.skipped == HowMany(IsSkippedState, items)
    && c.unfinished == HowMany(IsUnfinished, items)
  }

  /** The counts with one more item of this state. */
  function CountedIn(c: Counts, state: ItemState): Counts {
    var more := c.(total := c.total + 1);
    if state.Verified? then more.(verified := more.verified + 1)
    else if state.RetryableFailed? || state.PermanentFailed? then more.(failed := more.failed + 1)
    else if state.Cancelled? then more.(cancelled := more.cancelled + 1)
    else if state.IsSkipped() then more.(skipped := more.skipped + 1)
    else more.(unfinished := more.unfinished + 1)
  }

  lemma HowManyStep(kind: ItemState -> bool, items: seq<ReportItem>, i: nat)
    requires i < |items|
    ensures HowMany(kind, items[..i + 1]) == HowMany(kind, items[..i]) + if kind(items[i].state) then 1 else 0
  {
    assert items[..i + 1][..i] == items[..i];
  }

  lemma CountStep(c: Counts, items: seq<ReportItem>, i: nat)
    requires i < |items| && AreCounts(c, items[..i])
    ensures AreCounts(CountedIn(c, items[i].state), items[..i + 1])
  {
    HowManyStep(IsVerified, items, i);
    HowManyStep(IsFailedState, items, i);
    HowManyStep(IsCancelled, items, i);
    HowManyStep(IsSkippedState, items, i);
    HowManyStep(IsUnfinished, items, i);
  }

  /** Every item is counted once: the five kinds make up the total, and each is counted exactly. */
  method CountItems(items: seq<ReportItem>) returns (c: Counts)
    ensures AreCounts(c, items)
  {
    c := Counts(0, 0, 0, 0, 0, 0);
    for i := 0 to |items|
      invariant AreCounts(c, items[..i])
    {
      CountStep(c, items, i);
      c := CountedIn(c, items[i].state);
    }
    assert items[..|items|] == items;
  }

  // ---------------------------------------------------------------- lines

  datatype Line = Values(values: seq<string>) | Blank

  /** Line breaks and tabs of a value become spaces in the tab-separated form. */
  function Spaced(value: string): string {
    if value == [] then []
    else [if value[0] == '\r' || value[0] == '\n' || value[0] == '\t' then ' ' else value[0]] + Spaced(value[1..])
  }

  lemma {:induction false} SpacedMeans(value: string)
    ensures |Spaced(value)| == |value|
    ensures forall k :: 0 <= k < |value| ==>
              Spaced(value)[k] == if value[k] in {'\r', '\n', '\t'} then ' ' else value[k]
  {
    if value != [] { SpacedMeans(value[1..]); }
  }

  function RedactedCells(values: seq<string>, redact: string -> string): (r: seq<Cell>)
    ensures |r| == |values| && forall k :: 0 <= k < |r| ==> r[k] == Escaped(redact(values[k]))
  {
    if values == [] then [] else RedactedCells(values[..|values| - 1], redact) + [Escaped(redact(values[|values| - 1]))]
  }

  function TsvBody(values: seq<string>, redact: string -> string): string {
    if values == [] then ""
    else
      TsvBody(values[..|values| - 1], redact) + (if |values| == 1 then "" else "\t")
      + Spaced(redact(values[|values| - 1]))
  }

  function LineCells(line: Line, redact: string -> string): seq<Cell> {
    match line
    case Values(values) => RedactedCells(values, redact)
    case Blank => [Plain("")]
  }

  function LineText(line: Line, csv: bool, redact: string -> string): string {
    match line
    case Blank => "\n"
    case Values(values) => if csv then RowText(RedactedCells(values, redact)) else TsvBody(values, redact) + "\n"
  }

  function Text(lines: seq<Line>, csv: bool, redact: string -> string): string {
    if lines == [] then ""
    else Text(lines[..|lines| - 1], csv, redact) + LineText(lines[|lines| - 1], csv, redact)
  }

  lemma TextAppend(lines: seq<Line>, line: Line, csv: bool, redact: string -> string)
    ensures Text(lines + [line], csv, redact) == Text(lines, csv, redact) + LineText(line, csv, redact)
  {
    assert (lines + [line])[..|lines|] == lines;
  }

  lemma RowBodyStep(cells: seq<Cell>, i: nat)
    requires i < |cells|
    ensures RowBody(cells[..i + 1]) == RowBody(cells[..i]) + ((if i > 0 then "," else "") + CellText(cells[i]))
  {
    assert cells[..i + 1] == cells[..i] + [cells[i]];
    if i > 0 { RowBodyAppend(cells[..i], cells[i]); } else { assert cells[..1] == [cells[0]]; }
  }

  lemma TsvBodyStep(values: seq<string>, redact: string -> string, i: nat)
    requires i < |values|
    ensures
      TsvBody(values[..i + 1], redact) ==
        TsvBody(values[..i], redact) + ((if i > 0 then "\t" else "") + Spaced(redact(values[i])))
  {
    assert values[..i + 1][..i] == values[..i];
  }

  /** The text of the first `n` values of a row. */
  function BodyText(values: seq<string>, n: nat, csv: bool, redact: string -> string): string
    requires n <= |values|
  {
    if csv then RowBody(RedactedCells(values, redact)[..n]) else TsvBody(values[..n], redact)
  }

  /** One value of a row, after the mark that separates it from the one before. */
  function Piece(values: seq<string>, index: nat, csv: bool, redact: string -> string): string
    requires index < |values|
  {
    var sanitized := redact(values[index]);
    (if index == 0 then "" else if csv then "," else "\t") + if csv then CsvCell(sanitized) else Spaced(sanitized)
  }

  lemma BodyStep(values: seq<string>, index: nat, csv: bool, redact: string -> string)
    requires index < |values|
    ensures BodyText(values, index + 1, csv, redact) ==
              BodyText(values, index, csv, redact) + Piece(values, index, csv, redact)
  {
    if csv { RowBodyStep(RedactedCells(values, redact), index); } else { TsvBodyStep(values, redact, index); }
  }

  lemma WholeBody(values: seq<string>, csv: bool, redact: string -> string)
    ensures BodyText(values, |values|, csv, redact) + "\n" == LineText(Values(values), csv, redact)
    ensures BodyText(values, 0, csv, redact) == ""
  {
    var cells := RedactedCells(values, redact);
    assert cells[..|values|] == cells && values[..|values|] == values;
    assert cells[..0] == [] && values[..0] == [];
  }

  lemma Assoc(a: string, b: string, c: string)
    ensures (a + b) + c == a + (b + c)
  {
  }

  method AppendRow(output: string, values: seq<string>, csv: bool, redact: string -> string) returns (out: string)
    ensures out == output + LineText(Values(values), csv, redact)
  {
    out := output;
    ghost var body := "";
    WholeBody(values, csv, redact);
    for index := 0 to |values|
      invariant out == output + body && body == BodyText(values, index, csv, redact)
    {
      BodyStep(values, index, csv, redact);
      var piece := Piece(values, index, csv, redact);
      Assoc(output, body, piece);
      out, body := out + piece, body + piece;
    }
    Assoc(output, body, "\n");
    out := out + "\n";
  }

  // ---------------------------------------------------------------- the whole report

  function JoinWith(parts: seq<string>, mark: string): string {
    if parts == [] then "" else if |parts| == 1 then parts[0] else parts[0] + mark + JoinWith(parts[1..], mark)
  }

  function Metadata(s: Snapshot, c: Counts): seq<Pair> {
    [Pair("job_id", s.jobId), Pair("status", s.status), Pair("source_email", s.sourceEmail),
     Pair("source_display_name", s.sourceDisplayName), Pair("target_email", s.targetEmail),
     Pair("target_display_name", s.targetDisplayName), Pair("created_at", s.createdAt),
     Pair("started_at", OrEmpty(s.startedAt)),
     Pair("completed_at", OrEmpty(s.completedAt)), Pair("last_error", OrEmpty(s.lastError)),
     Pair("total", IntText(c.total)),
     Pair("verified", IntText(c.verified)), Pair("failed", IntText(c.failed)), Pair("cancelled", IntText(c.cancelled)),
     Pair("skipped", IntText(c.skipped)), Pair("unfinished", IntText(c.unfinished))]
  }

  function ItemValues(item: ReportItem): seq<string> {
    [item.fileId, item.name, item.mimeType, IntText(item.depth), OptionalInt(item.quotaBytesUsed),
     JoinWith(item.originalParentIds, ";"), StateName(item.state), OrEmpty(item.errorCode), OrEmpty(item.errorReason),
     OrEmpty(item.errorMessage), OrEmpty(item.transferredAt), OrEmpty(item.verifiedAt)]
  }

  function RootHeader(): seq<string> {
    ["root_file_id", "root_name"]
  }

  function ItemHeader(): seq<string> {
    ["file_id", "name", "mime_type", "depth", "quota_bytes_used", "original_parent_ids", "state", "error_code",
     "error_reason", "error_message", "transferred_at", "verified_at"]
  }

  function PairValues(pair: Pair): seq<string> {
    [pair.name, pair.value]
  }

  function PairLines(pairs: seq<Pair>): seq<Line> {
    if pairs == [] then [] else PairLines(pairs[..|pairs| - 1]) + [Values(PairValues(pairs[|pairs| - 1]))]
  }

  function ItemLines(items: seq<ReportItem>): seq<Line> {
    if items == [] then [] else ItemLines(items[..|items| - 1]) + [Values(ItemValues(items[|items| - 1]))]
  }

  /** What the report says: metadata, a blank line, the roots, a blank line, the items. */
  function ReportLines(s: Snapshot, c: Counts): seq<Line> {
    AllLines(Metadata(s, c), RootHeader(), s.roots, ItemHeader(), s.items)
  }

  function AllLines(
    metadata: seq<Pair>, rootHeader: seq<string>, roots: seq<Pair>, itemHeader: seq<string>,
    items: seq<ReportItem>): seq<Line>
  {
    PairLines(metadata) + [Blank] + [Values(rootHeader)] + PairLines(roots) + [Blank] + [Values(itemHeader)]
    + ItemLines(items)
  }

  lemma PairLinesStep(lines: seq<Line>, pairs: seq<Pair>, i: nat, csv: bool, redact: string -> string)
    requires i < |pairs|
    ensures
      Text(lines + PairLines(pairs[..i + 1]), csv, redact) ==
        Text(lines + PairLines(pairs[..i]), csv, redact) + LineText(Values(PairValues(pairs[i])), csv, redact)
  {
    assert pairs[..i + 1][..i] == pairs[..i];
    assert lines + PairLines(pairs[..i + 1]) == lines + PairLines(pairs[..i]) + [Values(PairValues(pairs[i]))];
    TextAppend(lines + PairLines(pairs[..i]), Values(PairValues(pairs[i])), csv, redact);
  }

  lemma ItemLinesStep(lines: seq<Line>, items: seq<ReportItem>, i: nat, csv: bool, redact: string -> string)
    requires i < |items|
    ensures
      Text(lines + ItemLines(items[..i + 1]), csv, redact) ==
        Text(lines + ItemLines(items[..i]), csv, redact) + LineText(Values(ItemValues(items[i])), csv, redact)
  {
    assert items[..i + 1][..i] == items[..i];
    assert lines + ItemLines(items[..i + 1]) == lines + ItemLines(items[..i]) + [Values(ItemValues(items[i]))];
    TextAppend(lines + ItemLines(items[..i]), Values(ItemValues(items[i])), csv, redact);
  }

  method AppendPairs(output: string, pairs: seq<Pair>, csv: bool, redact: string -> string, ghost lines: seq<Line>)
    returns (out: string)
    requires output == Text(lines, csv, redact)
    ensures out == Text(lines + PairLines(pairs), csv, redact)
  {
    out := output;
    assert lines + PairLines(pairs[..0]) == lines;
    for i := 0 to |pairs|
      invariant out == Text(lines + PairLines(pairs[..i]), csv, redact)
    {
      out := AppendRow(out, PairValues(pairs[i]), csv, redact);
      PairLinesStep(lines, pairs, i, csv, redact);
    }
    assert pairs[..|pairs|] == pairs;
  }

  method AppendItems(output: string, items: seq<ReportItem>, csv: bool, redact: string -> string,
      ghost lines: seq<Line>)
    returns (out: string)
    requires output == Text(lines, csv, redact)
    ensures out == Text(lines + ItemLines(items), csv, redact)
  {
    out := output;
    assert lines + ItemLines(items[..0]) == lines;
    for i := 0 to |items|
      invariant out == Text(lines + ItemLines(items[..i]), csv, redact)
    {
      out := AppendRow(out, ItemValues(items[i]), csv, redact);
      ItemLinesStep(lines, items, i, csv, redact);
    }
    assert items[..|items|] == items;
  }

  method AppendHeading(output: string, heading: seq<string>, csv: bool, redact: string -> string,
      ghost lines: seq<Line>)
    returns (out: string)
    requires output == Text(lines, csv, redact)
    ensures out == Text(lines + [Blank] + [Values(heading)], csv, redact)
  {
    TextAppend(lines, Blank, csv, redact);
    TextAppend(lines + [Blank], Values(heading), csv, redact);
    out := output + "\n";
    out := AppendRow(out, heading, csv, redact);
  }

  method RenderAll(
    metadata: seq<Pair>, rootHeader: seq<string>, roots: seq<Pair>, itemHeader: seq<string>,
    items: seq<ReportItem>, csv: bool, redact: string -> string) returns (output: string)
    ensures output == Text(AllLines(metadata, rootHeader, roots, itemHeader, items), csv, redact)
  {
    output := AppendPairs("", metadata, csv, redact, []);
    ghost var lines := PairLines(metadata);
    assert [] + lines == lines;
    output := AppendHeading(output, rootHeader, csv, redact, lines);
    lines := lines + [Blank] + [Values(rootHeader)];
    output := AppendPairs(output, roots, csv, redact, lines);
    lines := lines + PairLines(roots);
    output := AppendHeading(output, itemHeader, csv, redact, lines);
    lines := lines + [Blank] + [Values(itemHeader)];
    output := AppendItems(output, items, csv, redact, lines);
  }

  /** The report counts every item once and, as CSV, reads back as exactly its lines. */
  method Render(s: Snapshot, csv: bool, redact: string -> string) returns (output: string, counts: Counts)
    ensures AreCounts(counts, s.items)
    ensures output == Text(ReportLines(s, counts), csv, redact)
    ensures csv ==> ReadFile(output) == Some(ReadBack(ReportLines(s, counts), redact))
    ensures !csv ==> ReadTsv(output) == TsvLines(ReportLines(s, counts), redact)
  {
    counts := CountItems(s.items);
    output := RenderAll(Metadata(s, counts), RootHeader(), s.roots, ItemHeader(), s.items, csv, redact);
    LinesAreFull(Metadata(s, counts), RootHeader(), s.roots, ItemHeader(), s.items);
    if csv {
      ReportReadsBack(ReportLines(s, counts), redact);
    } else {
      TsvReadsBack(ReportLines(s, counts), redact);
    }
  }

  // ---------------------------------------------------------------- what stands where

  /** Under each heading of the items stands what it names. */
  lemma ItemColumns(item: ReportItem)
    ensures
      var h, v := ItemHeader(), ItemValues(item);
      && Holds(h, v, "file_id", item.fileId) && Holds(h, v, "name", item.name)
      && Holds(h, v, "mime_type", item.mimeType) && HoldsInt(h, v, "depth", item.depth)
      && (item.quotaBytesUsed.Some? ==> HoldsInt(h, v, "quota_bytes_used", item.quotaBytesUsed.value))
      && (item.quotaBytesUsed.None? ==> Holds(h, v, "quota_bytes_used", ""))
  {
    var h, v := ItemHeader(), ItemValues(item);
    IntReadsBack(item.depth);
    if item.quotaBytesUsed.Some? { IntReadsBack(item.quotaBytesUsed.value); }
    assert h[0] == "file_id" && v[0] == item.fileId && h[1] == "name" && v[1] == item.name;
    assert h[2] == "mime_type" && v[2] == item.mimeType && h[3] == "depth" && h[4] == "quota_bytes_used";
    assert v[3] == IntText(item.depth) && v[4] == OptionalInt(item.quotaBytesUsed);
  }

  lemma MoreItemColumns(item: ReportItem)
    ensures
      var h, v := ItemHeader(), ItemValues(item);
      && Holds(h, v, "state", StateName(item.state))
      && Holds(h, v, "error_code", if item.errorCode.Some? then item.errorCode.value else "")
      && Holds(h, v, "error_reason", if item.errorReason.Some? then item.errorReason.value else "")
      && Holds(h, v, "error_message", if item.errorMessage.Some? then item.errorMessage.value else "")
      && Holds(h, v, "transferred_at", if item.transferredAt.Some? then item.transferredAt.value else "")
      && Holds(h, v, "verified_at", if item.verifiedAt.Some? then item.verifiedAt.value else "")
      && Holds(h, v, "original_parent_ids", JoinWith(item.originalParentIds, ";"))
  {
    var h, v := ItemHeader(), ItemValues(item);
    assert h[5] == "original_parent_ids" && h[6] == "state" && h[7] == "error_code" && h[8] == "error_reason";
    assert h[9] == "error_message" && h[10] == "transferred_at" && h[11] == "verified_at";
    assert v[5] == JoinWith(item.originalParentIds, ";") && v[6] == StateName(item.state);
    assert v[7] == OrEmpty(item.errorCode) && v[8] == OrEmpty(item.errorReason);
    assert v[9] == OrEmpty(item.errorMessage) && v[10] == OrEmpty(item.transferredAt);
    assert v[11] == OrEmpty(item.verifiedAt);
  }

  predicate Counted(pairs: seq<Pair>, name: string, n: nat) {
    exists k :: 0 <= k < |pairs| && pairs[k].name == name && StandsForInt(pairs[k].value, n)
  }

  lemma CountedAt(pairs: seq<Pair>, k: nat, name: string, n: nat)
    requires k < |pairs| && pairs[k] == Pair(name, IntText(n))
    ensures Counted(pairs, name, n)
  {
    IntReadsBack(n);
  }

  /** The metadata name each field of the job and each count. */
  lemma MetadataNames(s: Snapshot, c: Counts)
    ensures
      var m := Metadata(s, c);
      && Pair("job_id", s.jobId) in m && Pair("status", s.status) in m
      && Pair("source_email", s.sourceEmail) in m && Pair("source_display_name", s.sourceDisplayName) in m
      && Pair("target_email", s.targetEmail) in m && Pair("target_display_name", s.targetDisplayName) in m
  {
    var m := Metadata(s, c);
    assert m[0] in m && m[1] in m && m[2] in m && m[3] in m && m[4] in m && m[5] in m;
  }

  lemma MetadataTimes(s: Snapshot, c: Counts)
    ensures
      var m := Metadata(s, c);
      && Pair("created_at", s.createdAt) in m
      && Pair("started_at", if s.startedAt.Some? then s.startedAt.value else "") in m
      && Pair("completed_at", if s.completedAt.Some? then s.completedAt.value else "") in m
      && Pair("last_error", if s.lastError.Some? then s.lastError.value else "") in m
  {
    var m := Metadata(s, c);
    assert m[6] in m && m[7] in m && m[8] in m && m[9] in m;
  }

  lemma MetadataCounts(s: Snapshot, c: Counts)
    ensures
      var m := Metadata(s, c);
      && Counted(m, "total", c.total) && Counted(m, "verified", c.verified) && Counted(m, "failed", c.failed)
      && Counted(m, "cancelled", c.cancelled) && Counted(m, "skipped", c.skipped)
      && Counted(m, "unfinished", c.unfinished)
  {
    var m := Metadata(s, c);
    CountedAt(m, 10, "total", c.total);
    CountedAt(m, 11, "verified", c.verified);
    CountedAt(m, 12, "failed", c.failed);
    CountedAt(m, 13, "cancelled", c.cancelled);
    CountedAt(m, 14, "skipped", c.skipped);
    CountedAt(m, 15, "unfinished", c.unfinished);
  }

  /** The parent ids are split from their column again: a Drive id holds no semicolon. */
  lemma {:induction false} ParentsReadBack(parts: seq<string>)
    requires parts != [] && forall k :: 0 <= k < |parts| ==> ';' !in parts[k]
    ensures SplitOn(JoinWith(parts, ";"), ';') == parts
    decreases |parts|
  {
    if |parts| == 1 {
      SplitWhole(parts[0], ';');
    } else {
      ParentsReadBack(parts[1..]);
      SplitBefore(parts[0], ';', JoinWith(parts[1..], ";"));
    }
  }

  // ---------------------------------------------------------------- reading the tab-separated form

  /** Lines end at line feeds and fields at tabs. */
  function ReadTsv(s: string): seq<seq<string>> {
    var lines := SplitOn(s, '\n');
    seq(|lines| - 1, k requires 0 <= k < |lines| - 1 => SplitOn(lines[k], '\t'))
  }

  function SpacedAll(values: seq<string>, redact: string -> string): (r: seq<string>)
    ensures |r| == |values| && forall k :: 0 <= k < |r| ==> r[k] == Spaced(redact(values[k]))
  {
    if values == [] then [] else SpacedAll(values[..|values| - 1], redact) + [Spaced(redact(values[|values| - 1]))]
  }

  /** What a reader gets for a line: each value redacted and spaced, and one empty field for a blank line. */
  function TsvLine(line: Line, redact: string -> string): seq<string> {
    match line
    case Values(values) => SpacedAll(values, redact)
    case Blank => [""]
  }

  function TsvLines(lines: seq<Line>, redact: string -> string): (r: seq<seq<string>>)
    ensures |r| == |lines| && forall k :: 0 <= k < |r| ==> r[k] == TsvLine(lines[k], redact)
  {
    if lines == [] then [] else TsvLines(lines[..|lines| - 1], redact) + [TsvLine(lines[|lines| - 1], redact)]
  }

  lemma SpacedHasNoMarks(value: string)
    ensures '\t' !in Spaced(value) && '\n' !in Spaced(value)
  {
    SpacedMeans(value);
  }

  lemma {:induction false} TsvBodyReadsBack(values: seq<string>, redact: string -> string)
    requires values != []
    ensures SplitOn(TsvBody(values, redact), '\t') == SpacedAll(values, redact) && '\n' !in TsvBody(values, redact)
    decreases |values|
  {
    var front, last := values[..|values| - 1], Spaced(redact(values[|values| - 1]));
    SpacedHasNoMarks(redact(values[|values| - 1]));
    if front == [] {
      assert TsvBody(values, redact) == last;
      SplitWhole(last, '\t');
    } else {
      TsvBodyReadsBack(front, redact);
      SplitOneMore(TsvBody(front, redact), '\t', last);
      assert TsvBody(values, redact) == TsvBody(front, redact) + ['\t'] + last;
    }
  }

  function TsvText(line: Line, redact: string -> string): string {
    if line.Values? then TsvBody(line.values, redact) else ""
  }

  lemma TsvLineText(line: Line, redact: string -> string)
    ensures LineText(line, false, redact) == TsvText(line, redact) + ['\n']
  {
  }

  lemma TsvTextHasNoBreak(line: Line, redact: string -> string)
    requires line.Values? ==> line.values != []
    ensures '\n' !in TsvText(line, redact) && SplitOn(TsvText(line, redact), '\t') == TsvLine(line, redact)
  {
    if line.Values? { TsvBodyReadsBack(line.values, redact); }
  }

  /** The lines of a text in the tab-separated form. */
  function Bodies(lines: seq<Line>, redact: string -> string): (r: seq<string>)
    ensures |r| == |lines| && forall k :: 0 <= k < |r| ==> r[k] == TsvText(lines[k], redact)
  {
    if lines == [] then [] else Bodies(lines[..|lines| - 1], redact) + [TsvText(lines[|lines| - 1], redact)]
  }

  lemma {:induction false} TsvTextSplits(lines: seq<Line>, redact: string -> string)
    requires Full(lines)
    ensures SplitOn(Text(lines, false, redact), '\n') == Bodies(lines, redact) + [""]
  {
    if lines != [] {
      var front, last := lines[..|lines| - 1], lines[|lines| - 1];
      TsvTextSplits(front, redact);
      TsvTextHasNoBreak(last, redact);
      TsvLineText(last, redact);
      LineFollows(Text(front, false, redact), Bodies(front, redact), TsvText(last, redact), '\n');
    }
  }

  /** The tab-separated report gives back every line and every value, redacted and with its tabs and line breaks as
      spaces. */
  lemma TsvReadsBack(lines: seq<Line>, redact: string -> string)
    requires Full(lines)
    ensures ReadTsv(Text(lines, false, redact)) == TsvLines(lines, redact)
  {
    TsvTextSplits(lines, redact);
    forall k | 0 <= k < |lines| ensures SplitOn(TsvText(lines[k], redact), '\t') == TsvLine(lines[k], redact) {
      TsvTextHasNoBreak(lines[k], redact);
    }
  }

  // ---------------------------------------------------------------- reading it back

  function GuardedAll(values: seq<string>, redact: string -> string): (r: seq<string>)
    ensures |r| == |values| && forall k :: 0 <= k < |r| ==> r[k] == Guarded(redact(values[k]))
  {
    if values == [] then [] else GuardedAll(values[..|values| - 1], redact) + [Guarded(redact(values[|values| - 1]))]
  }

  /** What a reader gets: each value redacted and guarded, and one empty field for a blank line. */
  function ReadBack(lines: seq<Line>, redact: string -> string): seq<seq<string>> {
    if lines == [] then []
    else ReadBack(lines[..|lines| - 1], redact) + [ReadLine(lines[|lines| - 1], redact)]
  }

  function ReadLine(line: Line, redact: string -> string): seq<string> {
    match line
    case Values(values) => GuardedAll(values, redact)
    case Blank => [""]
  }

  function CellsOf(lines: seq<Line>, redact: string -> string): (r: seq<seq<Cell>>)
    ensures |r| == |lines| && forall k :: 0 <= k < |r| ==> r[k] == LineCells(lines[k], redact)
  {
    if lines == [] then [] else CellsOf(lines[..|lines| - 1], redact) + [LineCells(lines[|lines| - 1], redact)]
  }

  /** Every row of values has at least one. */
  predicate Full(lines: seq<Line>) {
    forall k :: 0 <= k < |lines| ==> lines[k].Values? ==> lines[k].values != []
  }

  lemma {:induction false} PairsAreFull(pairs: seq<Pair>)
    ensures Full(PairLines(pairs))
  {
    if pairs != [] { PairsAreFull(pairs[..|pairs| - 1]); }
  }

  lemma {:induction false} ItemsAreFull(items: seq<ReportItem>)
    ensures Full(ItemLines(items))
  {
    if items != [] { ItemsAreFull(items[..|items| - 1]); }
  }

  lemma LinesAreFull(
    metadata: seq<Pair>, rootHeader: seq<string>, roots: seq<Pair>, itemHeader: seq<string>,
    items: seq<ReportItem>)
    requires rootHeader != [] && itemHeader != []
    ensures Full(AllLines(metadata, rootHeader, roots, itemHeader, items))
  {
    PairsAreFull(metadata);
    PairsAreFull(roots);
    ItemsAreFull(items);
  }

  lemma LineReadsBack(line: Line, redact: string -> string)
    requires line.Values? ==> line.values != []
    ensures RowOk(LineCells(line, redact)) && RowValues(LineCells(line, redact)) == ReadLine(line, redact)
    ensures LineText(line, true, redact) == RowText(LineCells(line, redact))
  {
    CellsGiveValues(LineCells(line, redact));
  }

  lemma {:induction false} LinesReadBack(lines: seq<Line>, redact: string -> string)
    requires Full(lines)
    ensures Text(lines, true, redact) == FileText(CellsOf(lines, redact))
    ensures FileValues(CellsOf(lines, redact)) == ReadBack(lines, redact)
    ensures forall k :: 0 <= k < |lines| ==> RowOk(CellsOf(lines, redact)[k])
  {
    if lines != [] {
      var rest, last := lines[..|lines| - 1], lines[|lines| - 1];
      LinesReadBack(rest, redact);
      LineReadsBack(last, redact);
      FileTextAppend(CellsOf(rest, redact), LineCells(last, redact));
      FileValuesAppend(CellsOf(rest, redact), LineCells(last, redact));
    }
  }

  /** The CSV report, read by the rules of RFC 4180, gives back every line and every value, redacted and guarded. */
  lemma ReportReadsBack(lines: seq<Line>, redact: string -> string)
    requires Full(lines)
    ensures ReadFile(Text(lines, true, redact)) == Some(ReadBack(lines, redact))
  {
    LinesReadBack(lines, redact);
    FileReadsBack(CellsOf(lines, redact));
  }
}
