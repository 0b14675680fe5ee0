/** What the final report says of a job that has run to its end. */
module Completion {
  import opened Items
  import opened Jobs
  import opened DriveModel
  import opened TransferModel
  import opened Transfer
  import opened TransferJobs
  import opened FinalReport
  import Classifier
  import ScanModel
  import ScanInvariant

  /** The report's items are the rows of the table, one for each, with its saved state. */
  predicate Lists(items: seq<ReportItem>, rows: map<string, Row>) {
    && (forall j, k :: 0 <= j < k < |items| ==> items[j].fileId != items[k].fileId)
    && (forall k :: 0 <= k < |items| ==> items[k].fileId in rows && items[k].state == rows[items[k].fileId].state)
    && (forall id :: id in rows ==> exists k :: 0 <= k < |items| && items[k].fileId == id)
  }

  /** The files of the items of one kind. */
  function FilesOf(kind: ItemState -> bool, items: seq<ReportItem>): set<string> {
    set k | 0 <= k < |items| && kind(items[k].state) :: items[k].fileId
  }

  lemma {:induction false} KindIsCounted(kind: ItemState -> bool, items: seq<ReportItem>)
    requires forall j, k :: 0 <= j < k < |items| ==> items[j].fileId != items[k].fileId
    ensures HowMany(kind, items) == |FilesOf(kind, items)|
  {
    if items != [] {
      KindIsCounted(kind, items[..|items| - 1]);
      LastIsCounted(kind, items);
    }
  }

  lemma LastIsCounted(kind: ItemState -> bool, items: seq<ReportItem>)
    requires items != [] && forall j, k :: 0 <= j < k < |items| ==> items[j].fileId != items[k].fileId
    ensures
      var rest, last := FilesOf(kind, items[..|items| - 1]), items[|items| - 1];
      last.fileId !in rest && FilesOf(kind, items) == rest + if kind(last.state) then {last.fileId} else {}
  {
    var n := |items| - 1;
    forall id
      ensures id in FilesOf(kind, items) <==>
              id in FilesOf(kind, items[..n]) || (kind(items[n].state) && id == items[n].fileId)
    {
      if k :| 0 <= k < n && kind(items[k].state) && items[k].fileId == id {
        assert items[..n][k] == items[k];
      }
    }
  }

  /** The items a retry request has reset after the run had dealt with them. */
  function ResetFiles(before: seq<Retried>, after: seq<Retried>, rows: map<string, Row>): set<string> {
    set id | id in rows && ResetSince(before, after, id)
  }

  lemma UnfinishedIsReset(
    before: seq<Retried>, after: seq<Retried>, rows: map<string, Row>, items: seq<ReportItem>, id: string)
    requires RestUnlessReset(before, after, rows, rows.Keys) && Keyed(rows) && Lists(items, rows) && id in rows
    ensures id in FilesOf(IsUnfinished, items) <==> ResetSince(before, after, id)
  {
    var k :| 0 <= k < |items| && items[k].fileId == id;
    assert IsUnfinished(items[k].state) <==> !AtRest(rows[id]);
  }

  lemma UnfinishedAreReset(
    before: seq<Retried>, after: seq<Retried>, rows: map<string, Row>, items: seq<ReportItem>)
    requires RestUnlessReset(before, after, rows, rows.Keys) && Keyed(rows) && Lists(items, rows)
    ensures FilesOf(IsUnfinished, items) == ResetFiles(before, after, rows)
  {
    forall id ensures id in FilesOf(IsUnfinished, items) <==> id in ResetFiles(before, after, rows) {
      if id in rows { UnfinishedIsReset(before, after, rows, items, id); }
    }
  }

  lemma FailuresAreReported(rows: map<string, Row>, items: seq<ReportItem>, c: Counts)
    requires Lists(items, rows) && AreCounts(c, items)
    ensures c.failed == 0 <==> !AnyFailed(rows)
  {
    if AnyFailed(rows) {
      var id :| id in rows && IsFailed(rows[id]);
      var k :| 0 <= k < |items| && items[k].fileId == id;
      assert IsFailedState(items[k].state);
    }
    if c.failed != 0 {
      var k :| 0 <= k < |items| && IsFailedState(items[k].state);
      assert IsFailed(rows[items[k].fileId]);
    }
  }

  /** After a run to the end the items reported unfinished are exactly those a retry request reset behind the run, and
      failures are reported exactly when there are any. */
  lemma RestIsReported(
    before: seq<Retried>, after: seq<Retried>, rows: map<string, Row>, items: seq<ReportItem>, c: Counts)
    requires RestUnlessReset(before, after, rows, rows.Keys) && Keyed(rows)
    requires Lists(items, rows) && AreCounts(c, items)
    ensures FilesOf(IsUnfinished, items) == ResetFiles(before, after, rows)
    ensures c.unfinished == |ResetFiles(before, after, rows)|
    ensures c.failed == 0 <==> !AnyFailed(rows)
  {
    UnfinishedAreReset(before, after, rows, items);
    KindIsCounted(IsUnfinished, items);
    FailuresAreReported(rows, items, c);
  }

  /** A bulk run that ends completes the job, without errors exactly when the report has no failure; the report has as
      many items unfinished as retry requests reset behind the run. */
  method BulkThenReport(run: TransferRun, job: Job, listed: map<string, ReportItem>)
    returns (r: Option<Halt>, after: Job, c: Counts)
    requires run.Valid() && listed.Keys == run.rows.Keys && forall id :: id in listed ==> listed[id].fileId == id
    modifies run
    ensures run.rows.Keys == old(run.rows).Keys
    ensures r.Some? && r.value.Exhausted? ==>
              && c.unfinished == |ResetFiles(old(run.retried), run.retried, run.rows)| && c.total == |run.rows|
              && (after.status.Completed? || after.status.CompletedWithErrors?)
              && (after.status.Completed? <==> c.failed == 0)
  {
    r, after := ExecuteBulk(run, job);
    var items := Report(run.rows, listed);
    c := CountItems(items);
    if r.Some? && r.value.Exhausted? { RestIsReported(old(run.retried), run.retried, run.rows, items, c); }
  }

  /** The same for a canary that turns out to have been the whole job, where only canary items had failed before. */
  method AutoThenReport(run: TransferRun, job: Job, size: nat, listed: map<string, ReportItem>)
    returns (r: Option<Halt>, after: Job, c: Counts)
    requires run.Valid() && listed.Keys == run.rows.Keys && forall id :: id in listed ==> listed[id].fileId == id
    modifies run
    ensures run.rows.Keys == old(run.rows).Keys
    ensures r.Some? && r.value.Exhausted? && !after.status.CanaryReview? ==>
              && c.unfinished == |ResetFiles(old(run.retried), run.retried, run.rows)| && c.total == |run.rows|
              && (after.status.Completed? || after.status.CompletedWithErrors?)
              && (OnlyCanariesFailed(old(run.rows)) ==> (after.status.Completed? <==> c.failed == 0))
  {
    r, after := ExecuteAutoTransfer(run, job, size);
    var items := Report(run.rows, listed);
    c := CountItems(items);
    if r.Some? && r.value.Exhausted? && !after.status.CanaryReview? {
      RestIsReported(old(run.retried), run.retried, run.rows, items, c);
    }
  }

  // ---------------------------------------------------------------- from the scan to the report

  /** The rows of a table that a scan has filled and no worker has touched. */
  predicate AsScanned(items: map<string, ScanModel.Item>, rows: map<string, Row>) {
    && rows.Keys == items.Keys
    && forall id :: id in rows ==>
         && rows[id].fileId == id && rows[id].state == items[id].state
         && !rows[id].canary && rows[id].targetPermission.None? && rows[id].lastError.None?
  }

  lemma ScannedState(drive: ScanModel.Drive, roots: set<string>, id: string, item: ScanModel.Item)
    requires ScanInvariant.SoundItem(drive, roots, id, item)
    ensures item.state.Eligible? || item.state.IsSkipped()
  {
    Classifier.OneStateToStart(ScanModel.AsMet(drive, roots, id), drive.source, drive.target, item.state, item.state);
  }

  lemma FreshRows(rows: map<string, Row>)
    requires forall id :: id in rows ==>
               rows[id].fileId == id && !rows[id].canary && (rows[id].state.Eligible? || rows[id].state.IsSkipped())
    ensures Keyed(rows) && CohortIds(rows) == {} && UnderWay(rows) == {} && !AnyFailed(rows) && OnlyCanariesFailed(rows)
  {
  }

  /** What a completed scan hands over: a row for each reachable item, each eligible or skipped, no canary and no
      failure. */
  lemma ScanHandsOver(drive: ScanModel.Drive, roots: set<string>, d: ScanModel.Durable, rows: map<string, Row>)
    requires ScanInvariant.Exact(drive, roots, d) && AsScanned(d.items, rows)
    ensures Keyed(rows) && CohortIds(rows) == {} && UnderWay(rows) == {} && !AnyFailed(rows) && OnlyCanariesFailed(rows)
    ensures forall id :: id in rows <==> ScanModel.Reachable(drive, roots, id)
    ensures forall id :: id in rows ==> rows[id].state.Eligible? || rows[id].state.IsSkipped()
  {
    forall id | id in rows ensures rows[id].state.Eligible? || rows[id].state.IsSkipped() {
      ScannedState(drive, roots, id, d.items[id]);
    }
    FreshRows(rows);
  }

  /** A job whose items come from a completed scan, run automatically: when the canary turns out to have been the whole
      job, the report counts every reachable item once, as unfinished exactly as many as retry requests reset behind the
      run, and the job completes without errors exactly when none is failed. */
  method ScanToReport(
    drive: ScanModel.Drive, roots: set<string>, d: ScanModel.Durable, who: Parties, rows: map<string, Row>,
    remote: map<string, DriveModel.Snapshot>, job: Job, size: nat, listed: map<string, ReportItem>)
    returns (run: TransferRun, r: Option<Halt>, after: Job, c: Counts)
    requires ScanInvariant.Exact(drive, roots, d) && AsScanned(d.items, rows)
    requires listed.Keys == rows.Keys && forall id :: id in listed ==> listed[id].fileId == id
    ensures run.rows.Keys == d.items.Keys
    ensures r.Some? && r.value.Exhausted? && !after.status.CanaryReview? ==>
              && c.unfinished == |ResetFiles([], run.retried, run.rows)| && c.total == |d.items|
              && (after.status.Completed? || after.status.CompletedWithErrors?)
              && (after.status.Completed? <==> c.failed == 0)
  {
    ScanHandsOver(drive, roots, d, rows);
    run := new TransferRun(who, Arbitrary, rows, remote);
    r, after, c := AutoThenReport(run, job, size, listed);
    assert |run.rows.Keys| == |run.rows| && |d.items.Keys| == |d.items|;
  }

  /** One report item for each row, in any order, with the state saved for it. */
  method Report(rows: map<string, Row>, listed: map<string, ReportItem>) returns (items: seq<ReportItem>)
    requires listed.Keys == rows.Keys && forall id :: id in listed ==> listed[id].fileId == id
    ensures Lists(items, rows) && |items| == |rows|
  {
    items := [];
    var left := rows.Keys;
    while left != {}
      invariant left <= rows.Keys && |items| + |left| == |rows|
      invariant forall j, k :: 0 <= j < k < |items| ==> items[j].fileId != items[k].fileId
      invariant forall k :: 0 <= k < |items| ==>
                  items[k].fileId in rows && items[k].fileId !in left && items[k].state == rows[items[k].fileId].state
      invariant forall id :: id in rows && id !in left ==> exists k :: 0 <= k < |items| && items[k].fileId == id
      decreases left
    {
      var id :| id in left;
      var item := listed[id].(state := rows[id].state);
      ghost var before := items;
      items := items + [item];
      assert items[|before|].fileId == id;
      forall x | x in rows && x !in left ensures exists k :: 0 <= k < |items| && items[k].fileId == x {
        var k :| 0 <= k < |before| && before[k].fileId == x;
        assert items[k].fileId == x;
      }
      left := left - {id};
    }
  }
}
