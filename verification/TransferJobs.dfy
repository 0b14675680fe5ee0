/** Canary, bulk and automatic runs of one job, and recovery after an interruption. */
module TransferJobs {
  import opened Items
  import opened Jobs
  import opened DriveModel
  import opened TransferModel
  import opened Transfer

  /** The status a run leaves the job in. */
  function ApplyHalt(job: Job, halt: Halt): Option<Job> {
    match halt
    case Exhausted(_, failed) => if job.status.RunningCanary? then CompleteCanary(job)
        else CompleteTransfer(job, failed > 0)
    case InTrouble(SharingRateLimited) => PauseSharingRateLimit(job)
    case InTrouble(WaitingForQuota) => WaitForQuota(job)
    case InTrouble(AuthRequired(_)) => RequireAuth(job)
    case PauseRequested => PauseTransfer(job)
    case CancelRequested => CancelJob(job)
  }

  /** The status a stop of this kind leaves the job in, for a canary and for a bulk run. */
  predicate Leaves(halt: Halt, canary: bool, status: JobStatus) {
    match halt
    case Exhausted(_, _) => if canary then status.CanaryReview? else status.Completed? || status.CompletedWithErrors?
    case InTrouble(SharingRateLimited) => status.SourceRateLimited?
    case InTrouble(WaitingForQuota) => status.WaitingForQuota?
    case InTrouble(AuthRequired(_)) => status.AuthRequired?
    case PauseRequested => status.Paused?
    case CancelRequested => status.Cancelled?
  }

  predicate AnyFailedIn(items: seq<Row>) {
    exists k :: 0 <= k < |items| && IsFailed(items[k])
  }

  /** These items are at rest, but for exactly those a retry request has reset after the run had dealt with them. */
  predicate RestUnlessReset(before: seq<Retried>, after: seq<Retried>, rows: map<string, Row>, ids: set<string>) {
    forall id :: id in ids ==> id in rows && (AtRest(rows[id]) <==> !ResetSince(before, after, id))
  }

  /** The cohort is at rest, but for what was reset behind the run, and nothing else was reset behind it. */
  predicate CohortRests(before: seq<Retried>, after: seq<Retried>, rows: map<string, Row>) {
    && RestUnlessReset(before, after, rows, CohortIds(rows))
    && forall id :: id in rows && id !in CohortIds(rows) ==> !ResetSince(before, after, id)
  }

  /** Outside the canary every row is as it was, but for retry requests. */
  predicate OutsideStands(a: map<string, Row>, b: map<string, Row>) {
    forall id :: id in b && id !in CohortIds(b) ==> id in a && Stands(a[id], b[id])
  }

  /** A run ends in an error only with a fault of the store, or an item in a state no step leads on from. */
  predicate ErrsForCause(r: Option<Halt>, a: World, b: World) {
    r.None? ==> b.faults > a.faults || exists id :: id in a.rows && a.rows[id].state.PendingOwnerCreated?
  }

  /** Only canary items may ever have failed, as when the scan's items have met nothing but a canary. */
  predicate OnlyCanariesFailed(rows: map<string, Row>) {
    forall id :: id in rows && IsFailed(rows[id]) ==> rows[id].canary
  }

  /** A call about a canary item, or one made while a cohort exists and every member of it is verified. */
  predicate Gated(c: Call, cohort: set<string>) {
    || c.saved.canary
    || (cohort != {} && forall id :: id in cohort ==> id in c.others && c.others[id].state.Verified?)
  }

  predicate GatedSince(before: seq<Call>, after: seq<Call>, cohort: set<string>) {
    before <= after && forall k :: |before| <= k < |after| ==> Gated(after[k], cohort)
  }

  predicate CanaryOnly(before: seq<Call>, after: seq<Call>) {
    before <= after && forall k :: |before| <= k < |after| ==> after[k].saved.canary
  }

  ghost predicate AllActiveAcceptable(rows: map<string, Row>, remote: map<string, Snapshot>, who: Parties) {
    forall id :: id in ActiveIds(rows) ==> id in remote && Acceptable(rows[id], remote[id], who)
  }

  predicate AllVerified(ids: set<string>, rows: map<string, Row>) {
    forall id :: id in ids ==> id in rows && rows[id].state.Verified?
  }

  /** Where nothing fails, a run to the end verifies every item it set out with. */
  lemma ReliableRunVerifies(
    who: Parties, a: World, b: World, items: seq<Row>, ids: set<string>, at: nat, r: Option<Halt>)
    requires Slice(items, ids, a.rows) && Covers(items, ids) && ids <= ActiveIds(a.rows)
    requires RunEnds(Reliable, who, a, b, items, ids, at, r)
    requires AllActiveAcceptable(a.rows, a.remote, who) && r.Some? && r.value.Exhausted?
    ensures AllVerified(ids, b.rows)
  {
    AllCounted(items, b.rows, |items|);
    assert AllAcceptable(items, a.remote, who);
    forall id | id in ids ensures id in b.rows && b.rows[id].state.Verified? {
      var k :| 0 <= k < |items| && items[k].fileId == id;
    }
  }

  lemma SelectingKeepsAcceptable(a: map<string, Row>, b: map<string, Row>, remote: map<string, Snapshot>, who: Parties)
    requires SelectedFrom(a, b) && AllActiveAcceptable(a, remote, who)
    ensures ActiveIds(b) == ActiveIds(a) && AllActiveAcceptable(b, remote, who)
  {
  }

  lemma SelectingKeepsFailuresCanary(a: map<string, Row>, b: map<string, Row>)
    requires SelectedFrom(a, b) && OnlyCanariesFailed(a)
    ensures OnlyCanariesFailed(b)
  {
  }

  predicate SameFilesOutside(a: map<string, Snapshot>, b: map<string, Snapshot>, ids: set<string>) {
    forall id :: id in a && id !in ids ==> id in b && b[id] == a[id]
  }

  /** What a canary run comes to, however it ends. */
  lemma CanaryRunMeans(mode: Mode, who: Parties, a: World, b: World, items: seq<Row>, at: nat, r: Option<Halt>)
    requires Slice(items, ActiveCohort(a.rows), a.rows) && Covers(items, ActiveCohort(a.rows))
    requires RunEnds(mode, who, a, b, items, ActiveCohort(a.rows), at, r)
    requires Keyed(a.rows)
    ensures b.rows.Keys == a.rows.Keys && CanaryOnly(a.calls, b.calls)
    ensures r.Some? && r.value.Exhausted? ==> CohortRests(a.retried, b.retried, b.rows)
    ensures OnlyCanariesFailed(a.rows) ==> OnlyCanariesFailed(b.rows)
    ensures CohortIds(b.rows) == CohortIds(a.rows) && OutsideStands(a.rows, b.rows) && a.retried <= b.retried
    ensures ErrsForCause(r, a, b) && a.faults <= b.faults
    ensures mode != Arbitrary ==> SameFilesOutside(a.remote, b.remote, CohortIds(b.rows))
    ensures mode == Reliable && AllActiveAcceptable(a.rows, a.remote, who) && r.Some? && r.value.Exhausted? ==>
              AllVerified(ActiveCohort(a.rows), b.rows)
  {
    if mode == Reliable && AllActiveAcceptable(a.rows, a.remote, who) && r.Some? && r.value.Exhausted? {
      ReliableRunVerifies(who, a, b, items, ActiveCohort(a.rows), at, r);
    }
    var next := if r.None? || r.value.InTrouble? then at + 1 else at;
    assert Progress(mode, who, a, b, items, ActiveCohort(a.rows), at, next);
    CohortStands(a.rows, b.rows, items, ActiveCohort(a.rows), next);
    if OnlyCanariesFailed(a.rows) { CanaryFailures(a.rows, b.rows, items, next); }
    if r.Some? && r.value.Exhausted? {
      RunPutsToRest(a, b, items, ActiveCohort(a.rows), CohortIds(b.rows));
      forall id | id in b.rows && id !in CohortIds(b.rows) ensures !ResetSince(a.retried, b.retried, id) {
        NotResetOutside(a.retried, b.retried, b.rows, items, ActiveCohort(a.rows), at, id);
      }
    }
    CanaryCalls(a.rows, a.calls, b.calls);
  }

  lemma CanaryCalls(rows: map<string, Row>, before: seq<Call>, after: seq<Call>)
    requires CallsProgress(rows, before, after, ActiveCohort(rows))
    ensures CanaryOnly(before, after)
  {
    forall k | |before| <= k < |after| ensures after[k].saved.canary {
      assert CallAmong(after[k], rows, ActiveCohort(rows));
    }
  }

  lemma CanaryFailures(a: map<string, Row>, b: map<string, Row>, items: seq<Row>, next: nat)
    requires Slice(items, ActiveCohort(a), a) && Covers(items, ActiveCohort(a))
    requires RowsProgress(a, b, items, ActiveCohort(a), next) && OnlyCanariesFailed(a) && CohortIds(b) == CohortIds(a)
    ensures OnlyCanariesFailed(b)
  {
    forall id | id in a && id !in CohortIds(b) ensures !IsFailed(b[id]) {
      assert Stands(a[id], b[id]);
    }
  }

  /** A run to the end of what was still to be transferred in a larger set leaves the whole of that set at rest, but for
      what a retry request reset behind it. */
  lemma RunPutsToRest(a: World, b: World, items: seq<Row>, active: set<string>, all: set<string>)
    requires Keyed(a.rows) && Covers(items, active) && RowsProgress(a.rows, b.rows, items, active, |items|)
    requires RetriesProgress(a.retried, b.retried, b.rows, items, active, |items|)
    requires all <= a.rows.Keys && forall id :: id in all && id !in active ==> !a.rows[id].state.IsTransferActive()
    ensures RestUnlessReset(a.retried, b.retried, b.rows, all)
  {
    forall id | id in all
      ensures id in b.rows && (AtRest(b.rows[id]) <==> !ResetSince(a.retried, b.retried, id))
    {
      if id in active {
        RunSettles(a.retried, b.retried, b.rows, items, active, id);
      } else {
        NotResetOutside(a.retried, b.retried, b.rows, items, active, |items|, id);
        assert Stands(a.rows[id], b.rows[id]);
      }
    }
  }

  /** Selecting touches nothing outside the canary, and starts no item that is where no step leads on from. */
  lemma SelectedThenRun(a: World, b: World, c: World, r: Option<Halt>)
    requires SelectedFrom(a.rows, b.rows) && b.faults == a.faults
    requires OutsideStands(b.rows, c.rows) && CohortIds(c.rows) == CohortIds(b.rows) && c.rows.Keys == b.rows.Keys
    requires ErrsForCause(r, b, c)
    ensures OutsideStands(a.rows, c.rows) && ErrsForCause(r, a, c)
  {
    forall id | id in c.rows && id !in CohortIds(c.rows) ensures id in a.rows && Stands(a.rows[id], c.rows[id]) {
      assert id !in CohortIds(b.rows);
    }
  }

  /** Choose the canary and transfer it. */
  method TransferCanary(run: TransferRun, size: nat) returns (r: Option<Halt>)
    requires run.Valid()
    modifies run
    ensures WasAsked(r, run.pause, run.cancel)
    ensures run.Valid() && run.rows.Keys == old(run.rows).Keys
    ensures OutsideStands(old(run.rows), run.rows) && old(run.retried) <= run.retried
    ensures ErrsForCause(r, old(run.Now()), run.Now()) && old(run.faults) <= run.faults
    ensures run.mode != Arbitrary ==> SameFilesOutside(old(run.remote), run.remote, CohortIds(run.rows))
    ensures CanaryOnly(old(run.calls), run.calls)
    ensures r.Some? && r.value.Exhausted? ==>
              CohortRests(old(run.retried), run.retried, run.rows)
    ensures OnlyCanariesFailed(old(run.rows)) ==> OnlyCanariesFailed(run.rows)
    ensures run.mode == Reliable && AllActiveAcceptable(old(run.rows), old(run.remote), run.who) ==>
              Between(r)
              && (r.value.Exhausted? ==> AllVerified(ActiveIds(old(run.rows)) * CohortIds(run.rows), run.rows))
  {
    var ok, batch := run.SelectCanaryBatch(size);
    if OnlyCanariesFailed(old(run.rows)) { SelectingKeepsFailuresCanary(old(run.rows), run.rows); }
    if !ok { return None; }
    if run.mode == Reliable && AllActiveAcceptable(old(run.rows), run.remote, run.who) {
      SelectingKeepsAcceptable(old(run.rows), run.rows, run.remote, run.who);
    }
    ghost var selected := run.Now();
    r := TransferBatch(run, batch);
    SelectedThenRun(old(run.Now()), selected, run.Now(), r);
  }

  method TransferBatch(run: TransferRun, batch: seq<Row>) returns (r: Option<Halt>)
    requires run.Valid() && Slice(batch, ActiveCohort(run.rows), run.rows) && Covers(batch, ActiveCohort(run.rows))
    modifies run
    ensures WasAsked(r, run.pause, run.cancel)
    ensures run.Valid() && run.rows.Keys == old(run.rows).Keys && CohortIds(run.rows) == CohortIds(old(run.rows))
    ensures OutsideStands(old(run.rows), run.rows) && old(run.retried) <= run.retried
    ensures ErrsForCause(r, old(run.Now()), run.Now()) && old(run.faults) <= run.faults
    ensures run.mode != Arbitrary ==> SameFilesOutside(old(run.remote), run.remote, CohortIds(run.rows))
    ensures CanaryOnly(old(run.calls), run.calls)
    ensures r.Some? && r.value.Exhausted? ==>
              CohortRests(old(run.retried), run.retried, run.rows)
    ensures OnlyCanariesFailed(old(run.rows)) ==> OnlyCanariesFailed(run.rows)
    ensures run.mode == Reliable && AllActiveAcceptable(old(run.rows), old(run.remote), run.who) ==>
              Between(r) && (r.value.Exhausted? ==> AllVerified(ActiveCohort(old(run.rows)), run.rows))
  {
    ghost var start := run.Now();
    ghost var at;
    r, at := run.TransferItems(batch, ActiveCohort(run.rows));
    CanaryRunMeans(run.mode, run.who, start, run.Now(), batch, at, r);
  }

  method ExecuteCanary(run: TransferRun, job: Job, size: nat) returns (r: Option<Halt>, after: Job)
    requires run.Valid()
    modifies run
    ensures WasAsked(r, run.pause, run.cancel)
    ensures run.Valid() && run.rows.Keys == old(run.rows).Keys
    ensures StartCanary(job).None? ==> r.None? && after == job && run.Now() == old(run.Now())
    ensures OutsideStands(old(run.rows), run.rows) && old(run.retried) <= run.retried
    ensures old(run.faults) <= run.faults
    ensures StartCanary(job).Some? ==> ErrsForCause(r, old(run.Now()), run.Now())
    ensures run.mode != Arbitrary ==> SameFilesOutside(old(run.remote), run.remote, CohortIds(run.rows))
    ensures CanaryOnly(old(run.calls), run.calls)
    ensures r.Some? ==> Leaves(r.value, true, after.status)
    ensures r.Some? && r.value.Exhausted? ==>
              CohortRests(old(run.retried), run.retried, run.rows)
    ensures OnlyCanariesFailed(old(run.rows)) ==> OnlyCanariesFailed(run.rows)
    ensures run.mode == Reliable && AllActiveAcceptable(old(run.rows), old(run.remote), run.who)
            && StartCanary(job).Some? ==>
              Between(r)
              && (r.value.Exhausted? ==> AllVerified(ActiveIds(old(run.rows)) * CohortIds(run.rows), run.rows))
  {
    var started := StartCanary(job);
    if started.None? { return None, job; }
    after := started.value;
    r := TransferCanary(run, size);
    if r.None? { return; }
    var applied := ApplyHalt(after, r.value);
    if applied.None? { return None, after; }
    after := applied.value;
  }

  /** What was not left to transfer is as it was. */
  predicate FinishedStand(a: map<string, Row>, b: map<string, Row>) {
    forall id :: id in a && id !in ActiveIds(a) ==> id in b && b[id] == a[id]
  }

  /** What a bulk run comes to, however it ends. */
  lemma BulkRunMeans(mode: Mode, who: Parties, a: World, b: World, items: seq<Row>, at: nat, r: Option<Halt>)
    requires Keyed(a.rows) && Slice(items, ActiveIds(a.rows), a.rows) && Covers(items, ActiveIds(a.rows))
    requires RunEnds(mode, who, a, b, items, ActiveIds(a.rows), at, r)
    ensures b.rows.Keys == a.rows.Keys && CohortIds(b.rows) == CohortIds(a.rows)
    ensures CallsProgress(a.rows, a.calls, b.calls, ActiveIds(a.rows))
    ensures FinishedStand(a.rows, b.rows) && a.retried <= b.retried && ErrsForCause(r, a, b) && a.faults <= b.faults
    ensures r.Some? && r.value.Exhausted? ==> RestUnlessReset(a.retried, b.retried, b.rows, b.rows.Keys)
    ensures mode == Reliable && AllActiveAcceptable(a.rows, a.remote, who) && r.Some? && r.value.Exhausted? ==>
              AllVerified(ActiveIds(a.rows), b.rows)
  {
    if mode == Reliable && AllActiveAcceptable(a.rows, a.remote, who) && r.Some? && r.value.Exhausted? {
      ReliableRunVerifies(who, a, b, items, ActiveIds(a.rows), at, r);
    }
    var ids := ActiveIds(a.rows);
    var next := if r.None? || r.value.InTrouble? then at + 1 else at;
    assert Progress(mode, who, a, b, items, ids, at, next);
    CohortStands(a.rows, b.rows, items, ids, next);
    if r.Some? && r.value.Exhausted? { RunPutsToRest(a, b, items, ids, b.rows.Keys); }
  }

  /** Transfer everything still to be transferred. */
  method TransferAll(run: TransferRun) returns (r: Option<Halt>)
    requires run.Valid()
    modifies run
    ensures WasAsked(r, run.pause, run.cancel)
    ensures run.Valid() && run.rows.Keys == old(run.rows).Keys && CohortIds(run.rows) == CohortIds(old(run.rows))
    ensures CallsProgress(old(run.rows), old(run.calls), run.calls, ActiveIds(old(run.rows)))
    ensures FinishedStand(old(run.rows), run.rows) && old(run.retried) <= run.retried
    ensures ErrsForCause(r, old(run.Now()), run.Now()) && old(run.faults) <= run.faults
    ensures r.Some? && r.value.Exhausted? ==>
              RestUnlessReset(old(run.retried), run.retried, run.rows, run.rows.Keys)
    ensures run.mode == Reliable && AllActiveAcceptable(old(run.rows), old(run.remote), run.who) ==>
              Between(r)
              && (r.value.Exhausted? ==> AllVerified(ActiveIds(old(run.rows)), run.rows))
  {
    var ok, items := run.ListItemsForTransfer();
    if !ok { return None; }
    ghost var start := run.Now();
    ghost var at;
    r, at := run.TransferItems(items, ActiveIds(run.rows));
    BulkRunMeans(run.mode, run.who, start, run.Now(), items, at, r);
  }

  method ExecuteBulk(run: TransferRun, job: Job) returns (r: Option<Halt>, after: Job)
    requires run.Valid()
    modifies run
    ensures WasAsked(r, run.pause, run.cancel)
    ensures run.Valid() && run.rows.Keys == old(run.rows).Keys && CohortIds(run.rows) == CohortIds(old(run.rows))
    ensures CallsProgress(old(run.rows), old(run.calls), run.calls, ActiveIds(old(run.rows)))
    ensures FinishedStand(old(run.rows), run.rows) && old(run.retried) <= run.retried
    ensures old(run.faults) <= run.faults
    ensures StartBulk(job).Some? ==> ErrsForCause(r, old(run.Now()), run.Now())
    ensures r.Some? ==> Leaves(r.value, false, after.status)
    ensures r.Some? && r.value.Exhausted? ==>
              && RestUnlessReset(old(run.retried), run.retried, run.rows, run.rows.Keys)
              && after.status == if AnyFailed(run.rows) then CompletedWithErrors else Completed
    ensures run.mode == Reliable && AllActiveAcceptable(old(run.rows), old(run.remote), run.who)
            && StartBulk(job).Some? ==>
              Between(r)
              && (r.value.Exhausted? ==> AllVerified(ActiveIds(old(run.rows)), run.rows))
  {
    var started := StartBulk(job);
    if started.None? { return None, job; }
    after := started.value;
    r := TransferAll(run);
    if r.None? { return; }
    if r.value.Exhausted? {
      var ok := run.ReadStore();
      if !ok { return None, after; }
      after := CompleteTransfer(after, AnyFailed(run.rows)).value;
    } else {
      var applied := ApplyHalt(after, r.value);
      if applied.None? { return None, after; }
      after := applied.value;
    }
  }

  /** When all that remains is the cohort, what holds of the cohort's rest holds of the whole job's. */
  lemma EarlyCompletionIsTotal(
    before: seq<Retried>, after: seq<Retried>, rows: map<string, Row>, remaining: seq<Row>, cohort: seq<Row>)
    requires Keyed(rows) && Slice(remaining, ActiveIds(rows), rows) && Covers(remaining, ActiveIds(rows))
    requires forall k :: 0 <= k < |remaining| ==> remaining[k].canary
    requires CohortRests(before, after, rows)
    requires Slice(cohort, CohortIds(rows), rows) && Covers(cohort, CohortIds(rows))
    ensures RestUnlessReset(before, after, rows, rows.Keys)
    ensures OnlyCanariesFailed(rows) ==> (AnyFailedIn(cohort) <==> AnyFailed(rows))
  {
    forall id | id in ActiveIds(rows) ensures id in CohortIds(rows) {
      var k :| 0 <= k < |remaining| && remaining[k].fileId == id;
      assert rows[id] == remaining[k];
    }
    if OnlyCanariesFailed(rows) && AnyFailed(rows) {
      var id :| id in rows && IsFailed(rows[id]);
      assert id in CohortIds(rows);
      var k :| 0 <= k < |cohort| && cohort[k].fileId == id;
      assert cohort[k] == rows[id];
    }
    if AnyFailedIn(cohort) {
      var k :| 0 <= k < |cohort| && IsFailed(cohort[k]);
      assert rows[cohort[k].fileId] == cohort[k];
    }
  }

  /** A canary that has come to its end completes the job if it was all there was to transfer, and leaves it in review
      otherwise. */
  predicate EndsEarly(before: seq<Retried>, after: seq<Retried>, rows: map<string, Row>, status: JobStatus) {
    if CanaryIsAll(rows) then
      && RestUnlessReset(before, after, rows, rows.Keys)
      && (status.Completed? || status.CompletedWithErrors?)
      && (OnlyCanariesFailed(rows) ==> (status.CompletedWithErrors? <==> AnyFailed(rows)))
    else status.CanaryReview?
  }

  /** See whether the canary was all there was to transfer. */
  method FinishEarly(run: TransferRun, job: Job, ghost before: seq<Retried>) returns (ok: bool, after: Job)
    requires run.Valid() && job.status.CanaryReview? && CohortRests(before, run.retried, run.rows)
    modifies run`faults
    ensures run.Valid() && (if ok then run.faults == old(run.faults) else run.faults > old(run.faults))
    ensures run.mode == Reliable ==> ok
    ensures ok ==> EndsEarly(before, run.retried, run.rows, after.status)
  {
    after := job;
    var remaining, cohort;
    ok, remaining := run.ListItemsForTransfer();
    if !ok { return; }
    if forall k :: 0 <= k < |remaining| ==> remaining[k].canary {
      ok, cohort := run.ListCanaryCohort();
      if !ok { return; }
      after := CompleteTransfer(StartBulk(after).value, AnyFailedIn(cohort)).value;
      EarlyCompletionIsTotal(before, run.retried, run.rows, remaining, cohort);
    } else {
      OneRemains(run.rows, remaining);
    }
  }

  lemma OneRemains(rows: map<string, Row>, remaining: seq<Row>)
    requires Slice(remaining, ActiveIds(rows), rows) && exists k :: 0 <= k < |remaining| && !remaining[k].canary
    ensures !CanaryIsAll(rows)
  {
    var k :| 0 <= k < |remaining| && !remaining[k].canary;
    assert remaining[k].fileId in ActiveIds(rows) && remaining[k].fileId !in CohortIds(rows);
  }

  /** A canary, and the end of the job when it turns out to have been all there was to transfer. */
  method ExecuteAutoTransfer(run: TransferRun, job: Job, size: nat) returns (r: Option<Halt>, after: Job)
    requires run.Valid()
    modifies run
    ensures WasAsked(r, run.pause, run.cancel)
    ensures run.Valid() && run.rows.Keys == old(run.rows).Keys
    ensures StartCanary(job).None? ==> r.None? && after == job && run.Now() == old(run.Now())
    ensures OutsideStands(old(run.rows), run.rows) && old(run.retried) <= run.retried
    ensures old(run.faults) <= run.faults
    ensures StartCanary(job).Some? ==> ErrsForCause(r, old(run.Now()), run.Now())
    ensures run.mode != Arbitrary ==> SameFilesOutside(old(run.remote), run.remote, CohortIds(run.rows))
    ensures CanaryOnly(old(run.calls), run.calls)
    ensures r.Some? && r.value.Exhausted? ==>
              && CohortRests(old(run.retried), run.retried, run.rows)
              && EndsEarly(old(run.retried), run.retried, run.rows, after.status)
    ensures OnlyCanariesFailed(old(run.rows)) ==> OnlyCanariesFailed(run.rows)
    ensures r.Some? && !r.value.Exhausted? ==> Leaves(r.value, true, after.status)
    ensures run.mode == Reliable && AllActiveAcceptable(old(run.rows), old(run.remote), run.who)
            && StartCanary(job).Some? ==>
              Between(r)
              && (r.value.Exhausted? ==> AllVerified(ActiveIds(old(run.rows)) * CohortIds(run.rows), run.rows))
  {
    r, after := ExecuteCanary(run, job, size);
    if r.Some? && r.value.Exhausted? {
      var ok;
      ok, after := FinishEarly(run, after, old(run.retried));
      if !ok { r := None; }
    }
  }

  /** What an automatic run from `a` to `b` comes to: it stays in review only with a canary that is neither all there is
      nor verified throughout, and otherwise ends the job with everything at rest but what was reset behind it. */
  predicate AutoEnds(a: World, b: World, r: Halt, status: JobStatus) {
    if r.Exhausted? then
      if status.CanaryReview? then !CanaryIsAll(b.rows) && !CanaryIsVerified(b.rows)
      else
        && RestUnlessReset(a.retried, b.retried, b.rows, b.rows.Keys)
        && (status.Completed? || status.CompletedWithErrors?)
        && (OnlyCanariesFailed(a.rows) ==> (status.CompletedWithErrors? <==> AnyFailed(b.rows)))
    else Leaves(r, true, status)
  }

  /** Once the cohort is verified, it stays so under every call about anything still to be transferred. */
  lemma GateHolds(rows: map<string, Row>, cohort: seq<Row>, before: seq<Call>, after: seq<Call>)
    requires Slice(cohort, CohortIds(rows), rows) && Covers(cohort, CohortIds(rows)) && cohort != []
    requires forall k :: 0 <= k < |cohort| ==> cohort[k].state.Verified?
    requires CallsProgress(rows, before, after, ActiveIds(rows))
    ensures GatedSince(before, after, CohortIds(rows))
  {
    var ids := ActiveIds(rows);
    assert cohort[0].fileId in CohortIds(rows);
    forall j, id | |before| <= j < |after| && id in CohortIds(rows)
      ensures id in after[j].others && after[j].others[id].state.Verified?
    {
      var k :| 0 <= k < |cohort| && cohort[k].fileId == id;
      assert rows[id].state.Verified? && id !in ids;
      assert id in rows - ids && (after[j].others - ids)[id] == (rows - ids)[id];
    }
  }

  /** A canary run from `a` has come to its end at `b`. */
  ghost predicate CanaryEnded(mode: Mode, who: Parties, a: World, b: World) {
    && b.rows.Keys == a.rows.Keys && OutsideStands(a.rows, b.rows)
    && a.retried <= b.retried && a.faults <= b.faults
    && CanaryOnly(a.calls, b.calls) && CohortRests(a.retried, b.retried, b.rows)
    && (mode != Arbitrary ==> SameFilesOutside(a.remote, b.remote, CohortIds(b.rows)))
    && (mode == Reliable && AllActiveAcceptable(a.rows, a.remote, who) ==>
          AllVerified(ActiveIds(a.rows) * CohortIds(b.rows), b.rows))
  }

  /** What the bulk run comes to that follows a canary verified throughout. */
  ghost predicate BulkDone(mode: Mode, who: Parties, a: World, b: World, r: Option<Halt>, status: JobStatus) {
    && b.rows.Keys == a.rows.Keys && CohortIds(b.rows) == CohortIds(a.rows)
    && GatedSince(a.calls, b.calls, CohortIds(b.rows))
    && FinishedStand(a.rows, b.rows) && a.retried <= b.retried && a.faults <= b.faults && ErrsForCause(r, a, b)
    && (r.Some? ==> Leaves(r.value, false, status))
    && (r.Some? && r.value.Exhausted? ==>
          && RestUnlessReset(a.retried, b.retried, b.rows, b.rows.Keys)
          && status == if AnyFailed(b.rows) then CompletedWithErrors else Completed)
    && (mode == Reliable && AllActiveAcceptable(a.rows, a.remote, who) ==>
          Between(r) && (r.value.Exhausted? ==> AllVerified(ActiveIds(a.rows), b.rows)))
  }

  /** What an automatic run comes to. */
  ghost predicate AutoDone(mode: Mode, who: Parties, a: World, b: World, r: Option<Halt>, status: JobStatus) {
    && b.rows.Keys == a.rows.Keys && GatedSince(a.calls, b.calls, CohortIds(b.rows))
    && (r.Some? ==> AutoEnds(a, b, r.value, status)) && ErrsForCause(r, a, b)
    && (mode == Reliable && AllActiveAcceptable(a.rows, a.remote, who) ==>
          Between(r) && (r.value.Exhausted? && !status.CanaryReview? ==> AllVerified(ActiveIds(a.rows), b.rows)))
  }

  /** The bulk run that follows a canary verified throughout. */
  method AdvanceToBulk(run: TransferRun, job: Job, cohort: seq<Row>) returns (r: Option<Halt>, after: Job)
    requires run.Valid() && job.status.CanaryReview? && cohort != []
    requires Slice(cohort, CohortIds(run.rows), run.rows) && Covers(cohort, CohortIds(run.rows))
    requires forall k :: 0 <= k < |cohort| ==> cohort[k].state.Verified?
    modifies run
    ensures WasAsked(r, run.pause, run.cancel)
    ensures run.Valid() && BulkDone(run.mode, run.who, old(run.Now()), run.Now(), r, after.status)
  {
    after := StartBulk(job).value;
    var ok := run.ReadStore();
    if !ok { return None, after; }
    ghost var gate := run.Now();
    r, after := ExecuteBulk(run, after);
    GateHolds(gate.rows, cohort, gate.calls, run.calls);
  }

  lemma CohortIsVerified(rows: map<string, Row>, cohort: seq<Row>)
    requires Slice(cohort, CohortIds(rows), rows) && Covers(cohort, CohortIds(rows)) && cohort != []
    requires forall k :: 0 <= k < |cohort| ==> cohort[k].state.Verified?
    ensures CanaryIsVerified(rows)
  {
    assert cohort[0].fileId in CohortIds(rows);
    forall id | id in CohortIds(rows) ensures rows[id].state.Verified? {
      var k :| 0 <= k < |cohort| && cohort[k].fileId == id;
    }
  }

  /** A canary verified throughout leaves the rest of the job as ready to transfer as it was. */
  lemma VerifiedCanaryLeads(
    who: Parties, a: map<string, Row>, b: map<string, Row>, before: map<string, Snapshot>,
    after: map<string, Snapshot>)
    requires CanaryIsVerified(b) && OutsideStands(a, b) && SameFilesOutside(before, after, CohortIds(b))
    requires AllActiveAcceptable(a, before, who)
    ensures AllActiveAcceptable(b, after, who)
  {
    forall id | id in ActiveIds(b) ensures id in after && Acceptable(b[id], after[id], who) {
      assert id !in CohortIds(b) && Stands(a[id], b[id]) && id in ActiveIds(a);
    }
  }

  /** What the bulk run after it verifies is all there was. */
  lemma VerifiedInBoth(a: map<string, Row>, b: map<string, Row>, c: map<string, Row>)
    requires CanaryIsVerified(b) && OutsideStands(a, b) && b.Keys == a.Keys
    requires FinishedStand(b, c) && AllVerified(ActiveIds(b), c)
    ensures AllVerified(ActiveIds(a), c)
  {
    forall id | id in ActiveIds(a) ensures id in c && c[id].state.Verified? {
      if id in CohortIds(b) {
        assert b[id].state.Verified? && id !in ActiveIds(b);
      } else {
        assert Stands(a[id], b[id]) && id in ActiveIds(b);
      }
    }
  }

  /** Behind a canary verified throughout nothing was reset, so that what was reset since is what the bulk run met. */
  lemma ResetInBoth(a: seq<Retried>, b: seq<Retried>, c: seq<Retried>, canary: map<string, Row>, rows: map<string, Row>)
    requires a <= b <= c && CohortRests(a, b, canary) && CanaryIsVerified(canary) && rows.Keys == canary.Keys
    requires RestUnlessReset(b, c, rows, rows.Keys)
    ensures RestUnlessReset(a, c, rows, rows.Keys)
  {
    forall id | id in rows ensures ResetSince(a, c, id) <==> ResetSince(b, c, id) {
      assert !ResetSince(a, b, id) by { if id in CohortIds(canary) { assert AtRest(canary[id]); } }
      forall j | |a| <= j < |b| ensures !Resets(c[j], id) {
        assert c[j] == b[j];
      }
      if ResetSince(b, c, id) { var j :| |b| <= j < |c| && Resets(c[j], id); }
    }
  }

  lemma CanaryWasAll(a: map<string, Row>, b: map<string, Row>)
    requires OutsideStands(a, b) && CanaryIsAll(b) && b.Keys == a.Keys
    ensures AllVerified(ActiveIds(a) * CohortIds(b), b) ==> AllVerified(ActiveIds(a), b)
  {
    forall id | id in b && id !in CohortIds(b) ensures id !in ActiveIds(a) {
      assert Stands(a[id], b[id]) && id !in ActiveIds(b);
    }
  }

  lemma NotAllVerified(rows: map<string, Row>, cohort: seq<Row>)
    requires Slice(cohort, CohortIds(rows), rows) && Covers(cohort, CohortIds(rows))
    requires cohort == [] || exists k :: 0 <= k < |cohort| && !cohort[k].state.Verified?
    ensures !CanaryIsVerified(rows)
  {
    if cohort == [] {
      assert forall id :: id in CohortIds(rows) ==> |cohort| > 0;
    } else {
      var k :| 0 <= k < |cohort| && !cohort[k].state.Verified?;
      assert cohort[k].fileId in CohortIds(rows);
    }
  }

  /** What a canary verified throughout and the bulk run after it come to together. */
  lemma AutoAdvanced(
    mode: Mode, who: Parties, a: World, b: World, c: World, r: Option<Halt>, status: JobStatus)
    requires CanaryEnded(mode, who, a, b) && CanaryIsVerified(b.rows) && BulkDone(mode, who, b, c, r, status)
    ensures AutoDone(mode, who, a, c, r, status)
  {
    GatedInBoth(a.calls, b.calls, c.calls, CohortIds(c.rows));
    StuckInBoth(r, a, b, c);
    if r.Some? && r.value.Exhausted? { ResetInBoth(a.retried, b.retried, c.retried, b.rows, c.rows); }
    if mode == Reliable && AllActiveAcceptable(a.rows, a.remote, who) {
      VerifiedCanaryLeads(who, a.rows, b.rows, a.remote, b.remote);
      if r.value.Exhausted? { VerifiedInBoth(a.rows, b.rows, c.rows); }
    }
  }

  lemma GatedInBoth(a: seq<Call>, b: seq<Call>, c: seq<Call>, cohort: set<string>)
    requires CanaryOnly(a, b) && GatedSince(b, c, cohort)
    ensures GatedSince(a, c, cohort)
  {
    forall k | |a| <= k < |c| ensures Gated(c[k], cohort) {
      if k < |b| { assert c[k] == b[k]; }
    }
  }

  lemma StuckInBoth(r: Option<Halt>, a: World, b: World, c: World)
    requires OutsideStands(a.rows, b.rows) && b.rows.Keys == a.rows.Keys && CanaryIsVerified(b.rows)
    requires a.faults <= b.faults && ErrsForCause(r, b, c)
    ensures ErrsForCause(r, a, c)
  {
    if r.None? && c.faults == b.faults {
      var id :| id in b.rows && b.rows[id].state.PendingOwnerCreated?;
      assert id !in CohortIds(b.rows) && Stands(a.rows[id], b.rows[id]);
    }
  }

  /** A canary that is neither all there is nor verified throughout leaves the job in review. */
  lemma StaysInReview(mode: Mode, who: Parties, a: World, b: World, r: Halt, status: JobStatus)
    requires CanaryEnded(mode, who, a, b) && r.Exhausted? && status.CanaryReview?
    requires !CanaryIsAll(b.rows) && !CanaryIsVerified(b.rows)
    ensures AutoDone(mode, who, a, b, Some(r), status)
  {
  }

  /** A canary in review leads on to the bulk run exactly when its whole cohort is verified. */
  method GoOnFromReview(run: TransferRun, job: Job, halt: Halt, ghost start: World)
    returns (r: Option<Halt>, after: Job)
    requires run.Valid() && job.status.CanaryReview? && halt.Exhausted?
    requires CanaryEnded(run.mode, run.who, start, run.Now()) && !CanaryIsAll(run.rows)
    modifies run
    ensures WasAsked(r, run.pause, run.cancel)
    ensures run.Valid() && AutoDone(run.mode, run.who, start, run.Now(), r, after.status)
  {
    var ok, cohort := run.ListCanaryCohort();
    if !ok { return None, job; }
    ghost var gate := run.Now();
    if cohort != [] && (forall k :: 0 <= k < |cohort| ==> cohort[k].state.Verified?) {
      CohortIsVerified(run.rows, cohort);
      r, after := AdvanceToBulk(run, job, cohort);
      AutoAdvanced(run.mode, run.who, start, gate, run.Now(), r, after.status);
    } else {
      r, after := Some(halt), job;
      NotAllVerified(run.rows, cohort);
      StaysInReview(run.mode, run.who, start, run.Now(), halt, job.status);
    }
  }

  /** A canary that did not come to its end, or was all there was to transfer, is the end of the automatic run. */
  lemma EndsWithCanary(mode: Mode, who: Parties, a: World, b: World, r: Option<Halt>, status: JobStatus)
    requires b.rows.Keys == a.rows.Keys && CanaryOnly(a.calls, b.calls) && ErrsForCause(r, a, b)
    requires mode == Reliable && AllActiveAcceptable(a.rows, a.remote, who) ==> Between(r)
    requires r.Some? && !r.value.Exhausted? ==> Leaves(r.value, true, status)
    requires r.Some? && r.value.Exhausted? ==>
               && CanaryEnded(mode, who, a, b) && CanaryIsAll(b.rows)
               && EndsEarly(a.retried, b.retried, b.rows, status)
               && (OnlyCanariesFailed(a.rows) ==> OnlyCanariesFailed(b.rows))
    ensures AutoDone(mode, who, a, b, r, status)
  {
    if r.Some? && r.value.Exhausted? { CanaryWasAll(a.rows, b.rows); }
  }

  /** A canary and, exactly when its whole cohort is verified and something is left, the bulk run: no call strays past
      the canary before that. Where nothing fails, a run that comes to its end outside review has verified all items. */
  method RunTransferAuto(run: TransferRun, job: Job, size: nat) returns (r: Option<Halt>, after: Job)
    requires run.Valid()
    modifies run
    ensures WasAsked(r, run.pause, run.cancel)
    ensures run.Valid()
    ensures if StartCanary(job).None? then r.None? && run.Now() == old(run.Now())
            else AutoDone(run.mode, run.who, old(run.Now()), run.Now(), r, after.status)
  {
    ghost var start := run.Now();
    r, after := ExecuteAutoTransfer(run, job, size);
    if StartCanary(job).None? { return; }
    if r.Some? && after.status.CanaryReview? {
      r, after := GoOnFromReview(run, after, r.value, start);
    } else {
      EndsWithCanary(run.mode, run.who, start, run.Now(), r, after.status);
    }
  }

  /** Resume a run in the phase it was in: look at what an interruption left, then go on. A job that seems to be in the
      scan phase is refused. */
  method Resume(run: TransferRun, job: Job, phase: RunPhase, size: nat) returns (r: Option<Halt>, after: Job)
    requires run.Valid()
    modifies run
    ensures WasAsked(r, run.pause, run.cancel)
    ensures run.Valid() && run.rows.Keys == old(run.rows).Keys
    ensures r.Some? ==> Leaves(r.value, phase.Canary?, after.status)
    ensures !job.status.IsTransferResumable() || phase.Scan? ==> r.None? && after == job && run.Now() == old(run.Now())
    ensures run.mode == Reliable && job.status.IsTransferResumable() && !phase.Scan? ==>
              Between(r)
              && (r.value.Exhausted? ==>
                    forall id :: id in ActiveIds(old(run.rows)) && (phase.Canary? ==> id in CohortIds(run.rows)) ==>
                      VerifiedAndMoved(id, run.rows, run.remote, run.who))
  {
    if !job.status.IsTransferResumable() || phase.Scan? { return None, job; }
    var ok, items := run.ListItemsForTransfer();
    if !ok { return None, job; }
    ghost var before := run.rows;
    var halt;
    ok, halt := run.ReconcileCheckpoint(items, ActiveIds(run.rows));
    if run.mode == Reliable { ReconciledIsAcceptable(before, run.rows, run.remote, items, run.who); }
    if !ok { return None, job; }
    if halt.Some? {
      var required := RequireAuth(job);
      after := if required.Some? then required.value else job;
      return Some(InTrouble(halt.value)), after;
    }
    after := ResumeTransfer(job, phase.Canary?).value;
    if phase.Canary? {
      r, after := ExecuteCanary(run, after, size);
    } else {
      r, after := ExecuteBulk(run, after);
    }
    if run.mode == Reliable { VerifiedIsMoved(run.who, run.rows, run.remote); }
  }

  lemma VerifiedIsMoved(who: Parties, rows: map<string, Row>, remote: map<string, Snapshot>)
    requires Truthful(who, rows, remote)
    ensures forall id :: id in rows && rows[id].state.Verified? ==> VerifiedAndMoved(id, rows, remote, who)
  {
  }

  ghost predicate VerifiedAndMoved(id: string, rows: map<string, Row>, remote: map<string, Snapshot>, who: Parties) {
    && id in rows && rows[id].state.Verified?
    && id in remote && remote[id].owners == [who.target]
  }

  lemma ReconciledIsAcceptable(
    a: map<string, Row>, b: map<string, Row>, remote: map<string, Snapshot>, items: seq<Row>, who: Parties)
    requires Slice(items, ActiveIds(a), a) && Covers(items, ActiveIds(a)) && Truthful(who, b, remote)
    requires b.Keys == a.Keys && b - ActiveIds(a) == a - ActiveIds(a)
    requires forall k :: 0 <= k < |items| ==>
               && b[items[k].fileId].state.IsTransferActive()
               && Acceptable(b[items[k].fileId], remote[items[k].fileId], who)
    ensures ActiveIds(b) == ActiveIds(a) && AllActiveAcceptable(b, remote, who)
  {
    forall id | id in a ensures id in ActiveIds(b) <==> id in ActiveIds(a) {
      if id in ActiveIds(a) {
        var k :| 0 <= k < |items| && items[k].fileId == id;
      } else {
        assert (b - ActiveIds(a))[id] == (a - ActiveIds(a))[id];
      }
    }
    forall id | id in ActiveIds(b) ensures id in remote && Acceptable(b[id], remote[id], who) {
      var k :| 0 <= k < |items| && items[k].fileId == id;
    }
  }

  /** One run of any kind, of a job in any state, a request to retry what failed, or the end of a cancelled job. */
  method AnyRun(run: TransferRun, job: Job, size: nat)
    requires run.Valid()
    modifies run
    ensures run.Valid() && run.rows.Keys == old(run.rows).Keys
  {
    run.pause, run.cancel := false, false;
    var canary: bool, bulk: bool, resume: bool, again: bool, cancel: bool := *, *, *, *, *;
    if canary {
      var r, after := ExecuteCanary(run, job, size);
    } else if bulk {
      var r, after := ExecuteBulk(run, job);
    } else if resume {
      var phase: RunPhase := *;
      var r, after := Resume(run, job, phase, size);
    } else if again {
      var ok := run.RetryFailedItems();
    } else if cancel {
      var ok := run.CancelUnstartedItems();
    } else {
      var r, after := RunTransferAuto(run, job, size);
    }
  }

  /** After any number of runs against a truthful but faulty Drive and store, broken off anywhere, one undisturbed
      resume verifies every item of its phase that was not given up, and its file then belongs to the target alone. */
  method InterruptedThenResumed(
    who: Parties, rows: map<string, Row>, remote: map<string, Snapshot>, jobs: seq<Job>, size: nat, job: Job,
    phase: RunPhase) returns (ghost left: map<string, Row>, run: TransferRun, r: Option<Halt>)
    requires Keyed(rows) && Truthful(who, rows, remote) && job.status.IsTransferResumable()
    ensures run.Valid() && run.rows.Keys == left.Keys == rows.Keys
    ensures if phase.Scan? then r.None? && run.rows == left else Between(r)
    ensures !phase.Scan? && !run.pause && !run.cancel ==> r.value.Exhausted?
    ensures r.Some? && r.value.Exhausted? ==>
              forall id :: id in ActiveIds(left) && (phase.Canary? ==> id in CohortIds(run.rows)) ==>
                VerifiedAndMoved(id, run.rows, run.remote, who)
  {
    var faulty := new TransferRun(who, Faulty, rows, remote);
    for i := 0 to |jobs|
      invariant faulty.Valid() && faulty.rows.Keys == rows.Keys
    {
      AnyRun(faulty, jobs[i], size);
    }
    left := faulty.rows;
    run := new TransferRun(who, Reliable, faulty.rows, faulty.remote);
    var after;
    r, after := Resume(run, job, phase, size);
  }
}
