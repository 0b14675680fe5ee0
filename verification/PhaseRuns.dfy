/** Runs of one job that end otherwise than one might expect, over six items of which a canary of the default size takes
    five. */
module PhaseRuns {
  import opened Items
  import opened Jobs
  import opened Queue
  import opened TransferModel
  import opened JobSteps
  import opened PhaseRecovery

  /** The default size of a canary. */
  const CANARY_SIZE: nat := 5

  /** The canary's files, and one more. */
  datatype Files = Files(cohort: set<string>, extra: string)

  predicate AreSix(f: Files) {
    |f.cohort| == CANARY_SIZE && f.extra !in f.cohort
  }

  /** The five of the cohort in one state, the sixth in another. */
  function Table(f: Files, first: ItemState, last: ItemState, canary: bool): map<string, Row> {
    map id | id in f.cohort + {f.extra} ::
      Row(id, [], None, if id in f.cohort then first else last, canary && id in f.cohort, None)
  }

  function Fresh(f: Files, last: ItemState): State {
    State(Job(ReadyForReview, None), CANARY_SIZE, [], Table(f, Eligible, last, false), Idle, None)
  }

  lemma CohortOfTable(f: Files, first: ItemState, last: ItemState, canary: bool)
    requires f.extra !in f.cohort
    ensures CohortIds(Table(f, first, last, canary)) == if canary then f.cohort else {}
  {
  }

  lemma ActiveInTable(f: Files, first: ItemState, last: ItemState, canary: bool)
    requires f.extra !in f.cohort && first.IsTransferActive()
    ensures
      ActiveIds(Table(f, first, last, canary)) == f.cohort + if last.IsTransferActive() then {f.extra} else {}
  {
    var rows := Table(f, first, last, canary);
    forall id ensures id in ActiveIds(rows) <==> id in f.cohort || (id == f.extra && last.IsTransferActive()) {
      if id in rows { assert rows[id].state == if id in f.cohort then first else last; }
    }
  }

  lemma FreshIsMarked(f: Files, last: ItemState)
    requires f.extra !in f.cohort
    ensures SelectedFrom(Table(f, Eligible, last, false), Table(f, PendingOwnerRequired, last, true))
  {
    var a, b := Table(f, Eligible, last, false), Table(f, PendingOwnerRequired, last, true);
    forall id | id in a ensures b[id] == a[id] || (a[id].state.IsTransferActive() && MarkOf(a[id], b[id])) {
      if id in f.cohort { assert b[id] == Marked(a[id], true); }
    }
  }

  lemma NothingUnderWay(f: Files, last: ItemState)
    requires f.extra !in f.cohort && (last.Eligible? || last.IsTerminal())
    ensures UnderWay(Table(f, Eligible, last, false)) == {}
  {
  }

  lemma ChosenIsActive(f: Files, last: ItemState)
    requires f.extra !in f.cohort && (last.Eligible? || last.IsTerminal())
    ensures ActiveCohort(Table(f, PendingOwnerRequired, last, true)) == f.cohort
  {
    CohortOfTable(f, PendingOwnerRequired, last, true);
    ActiveInTable(f, PendingOwnerRequired, last, true);
  }

  /** A first canary may take the five. */
  lemma CanaryTakesFive(f: Files, last: ItemState)
    requires AreSix(f) && (last.Eligible? || last.IsTerminal())
    ensures
      Selects(Table(f, Eligible, last, false), Table(f, PendingOwnerRequired, last, true), f.cohort, CANARY_SIZE)
  {
    var a, b := Table(f, Eligible, last, false), Table(f, PendingOwnerRequired, last, true);
    CohortOfTable(f, Eligible, last, false);
    FreshIsMarked(f, last);
    NothingUnderWay(f, last);
    assert f.cohort <= ActiveIds(a) by { ActiveInTable(f, Eligible, last, false); }
    ChosenIsActive(f, last);
    assert forall id :: id in f.cohort ==> b[id].state.PendingOwnerRequired?;
  }

  lemma DealsWithFive(f: Files, from: ItemState, to: ItemState, last: ItemState)
    requires f.extra !in f.cohort && (to.Verified? || to.RetryableFailed?)
    ensures Deals(Table(f, from, last, true), Table(f, to, last, true), f.cohort, f.cohort)
  {
  }

  function CanarySteps(f: Files, last: ItemState, settled: ItemState): seq<Step> {
    [Select(Table(f, PendingOwnerRequired, last, true), f.cohort)] + [Work(Table(f, settled, last, true), f.cohort)]
  }

  lemma OneStep(s: State, id: nat, step: Step)
    ensures Run(s, id, [step]) == Next(s, id, step)
  {
    RunThen(s, id, [], step);
    assert [] + [step] == [step];
  }

  lemma SelectThenWork(s: State, id: nat, a: map<string, Row>, b: map<string, Row>, batch: set<string>)
    requires s.activity.Opening? && WasCanary(s) && Selects(s.rows, a, batch, s.size) && Deals(a, b, batch, batch)
    ensures
      Run(s, id, [Select(a, batch)] + [Work(b, batch)]) ==
      s.(rows := b, activity := Working(s.activity.auto, {}))
  {
    OneStep(s, id, Select(a, batch));
    RunThen(s, id, [Select(a, batch)], Work(b, batch));
    assert batch - batch == {};
  }

  /** A first canary takes the five items and settles them. */
  lemma CanaryOfFive(s: State, id: nat, f: Files, last: ItemState, settled: ItemState)
    requires AreSix(f) && (last.Eligible? || last.IsTerminal()) && (settled.Verified? || settled.RetryableFailed?)
    requires s.activity.Opening? && WasCanary(s) && s.size == CANARY_SIZE && s.rows == Table(f, Eligible, last, false)
    ensures
      Run(s, id, CanarySteps(f, last, settled)) ==
      s.(rows := Table(f, settled, last, true), activity := Working(s.activity.auto, {}))
  {
    CanaryTakesFive(f, last);
    DealsWithFive(f, PendingOwnerRequired, settled, last);
    SelectThenWork(s, id, Table(f, PendingOwnerRequired, last, true), Table(f, settled, last, true), f.cohort);
  }

  /** The state of the job between two steps, but for its log. */
  predicate At(s: State, status: JobStatus, rows: map<string, Row>, activity: Activity, last: Worker) {
    s.job == Job(status, None) && s.size == CANARY_SIZE && s.rows == rows && s.activity == activity
    && s.last == Some(last)
  }

  lemma CanaryStarts(s: State, id: nat, auto: bool)
    requires !s.Alive() && s.size == CANARY_SIZE && (s.job.status.ReadyForReview? || (s.job.status.Queued? && !auto))
    ensures
      At(Next(s, id, StartCanaryWorker(auto)), RunningCanary, s.rows, Opening(auto), CanaryWorker(false))
  {
  }

  lemma CanaryEnds(s: State, id: nat)
    requires At(s, RunningCanary, s.rows, Working(false, {}), CanaryWorker(false))
    ensures At(Next(s, id, Halt(CanaryReview)), CanaryReview, s.rows, Idle, CanaryWorker(true))
  {
  }

  const BULK_STARTS: seq<Step> := [StartBulkWorker] + [ReadSlice]

  lemma BulkStarts(s: State, id: nat)
    requires At(s, CanaryReview, s.rows, Idle, CanaryWorker(true))
    ensures At(Run(s, id, BULK_STARTS), Running, s.rows, Working(false, ActiveIds(s.rows)), BulkWorker)
  {
    OneStep(s, id, StartBulkWorker);
    RunThen(s, id, [StartBulkWorker], ReadSlice);
  }

  lemma BulkPauses(s: State, id: nat, left: set<string>)
    requires At(s, Running, s.rows, Working(false, left), BulkWorker) && left != {}
    ensures At(Next(s, id, Halt(Paused)), Paused, s.rows, Idle, BulkWorker)
  {
  }

  lemma BulkDeals(s: State, id: nat, left: set<string>, rows: map<string, Row>)
    requires At(s, Running, s.rows, Working(false, left), BulkWorker) && Deals(s.rows, rows, left, left)
    ensures At(Next(s, id, Work(rows, left)), Running, rows, Working(false, {}), BulkWorker)
  {
    assert left - left == {};
  }

  const QUEUED_CANARY: seq<Step> := [PutInQueue(1)] + [StartCanaryWorker(false)]

  lemma QueuedCanaryStarts(s: State, id: nat)
    requires !s.Alive() && s.job.status.Paused? && s.size == CANARY_SIZE
    ensures At(Run(s, id, QUEUED_CANARY), RunningCanary, s.rows, Opening(false), CanaryWorker(false))
  {
    OneStep(s, id, PutInQueue(1));
    RunThen(s, id, [PutInQueue(1)], StartCanaryWorker(false));
    CanaryStarts(Next(s, id, PutInQueue(1)), id, false);
  }

  const SCANNED_AGAIN: seq<Step> := [StartScan] + [EndScan(ReadyForReview)]

  lemma ScannedAgain(s: State, id: nat)
    requires !s.Alive() && s.job.status.Paused? && !LooksLikePause(s, id)
    ensures Run(s, id, SCANNED_AGAIN) == s.(job := s.job.(status := ReadyForReview))
  {
    OneStep(s, id, StartScan);
    RunThen(s, id, [StartScan], EndScan(ReadyForReview));
  }

  /** A retry request, and the end of a worker that has nothing left to do. */
  const RETRIED_COMPLETES: seq<Step> := [RetryFailed] + [Halt(Completed)]

  lemma RetriedCompletes(s: State, id: nat, worker: Worker)
    requires s.last == Some(worker) && s.activity.Working? && s.activity.left == {}
    requires worker.CanaryWorker? ==> s.activity.auto && CanaryIsAll(Requeued(s.rows))
    requires !AnyFailed(Requeued(s.rows))
    ensures
      var n := Run(s, id, RETRIED_COMPLETES);
      n.job.status.Completed? && n.rows == Requeued(s.rows)
  {
    OneStep(s, id, RetryFailed);
    RunThen(s, id, [RetryFailed], Halt(Completed));
    var n := s.(rows := Requeued(s.rows));
    assert CanHalt(n, worker, Completed);
  }

  // ---------------------------------------------------------------- a canary that dies at once

  /** The canary's worker dies before it has saved its choice; the next startup pauses the job. */
  function DeadCanary(f: Files, last: ItemState): seq<Step> {
    [StartCanaryWorker(false)] + [Crash] + [Startup(Table(f, Eligible, last, false), false)]
  }

  predicate IsTry(step: Step) {
    step.Resume? || step.ResumeRefused? || step.ResumeFails?
  }

  lemma {:induction false} TriesChangeNothing(s: State, id: nat, tries: seq<Step>)
    requires !s.Alive() && PhaseOf(s, id).Scan? && forall step :: step in tries ==> IsTry(step)
    ensures Run(s, id, tries) == s
  {
    if tries != [] {
      TriesChangeNothing(s, id, tries[..|tries| - 1]);
      assert tries[|tries| - 1] in tries;
    }
  }

  lemma AfterDeadCanary(id: nat, f: Files)
    ensures
      var n := Run(Fresh(f, Eligible), id, DeadCanary(f, Eligible));
      && At(n, Paused, Table(f, Eligible, Eligible, false), Idle, CanaryWorker(false))
      && LatestStatusEvent(n.log, id) == Some(Event(id, StatusEvent, Some(ReadyForReview), RunningCanary))
  {
    var s := Fresh(f, Eligible);
    var startup := Startup(s.rows, false);
    OneStep(s, id, StartCanaryWorker(false));
    RunThen(s, id, [StartCanaryWorker(false)], Crash);
    RunThen(s, id, [StartCanaryWorker(false)] + [Crash], startup);
    var s1 := Next(s, id, StartCanaryWorker(false));
    Appended(s, id, s1);
    var s2 := Next(s1, id, Crash);
    Appended(s2, id, Next(s2, id, startup));
  }

  /** A canary that died before it saved its choice leaves a paused job whose log names its phase, and yet no resume
      goes on with it, now or on any later try. */
  lemma DeadCanaryStaysPaused(id: nat, f: Files, tries: seq<Step>)
    requires forall step :: step in tries ==> IsTry(step)
    ensures
      var n := Run(Fresh(f, Eligible), id, DeadCanary(f, Eligible));
      && n.job.status.Paused? && WasCanary(n) && NamesPhase(LatestStatusEvent(n.log, id)) && ShouldResumeAsCanary(n, id)
      && Run(n, id, tries) == n
  {
    AfterDeadCanary(id, f);
    var n := Run(Fresh(f, Eligible), id, DeadCanary(f, Eligible));
    assert CohortIds(n.rows) == {};
    TriesChangeNothing(n, id, tries);
  }

  /** Scanning again, which finds nothing to scan, or queueing the job leads to a canary after all. */
  lemma DeadCanaryStartsAgain(id: nat, f: Files)
    ensures
      var n := Run(Fresh(f, Eligible), id, DeadCanary(f, Eligible));
      && Run(n, id, SCANNED_AGAIN + [StartCanaryWorker(false)]).Alive()
      && Run(n, id, QUEUED_CANARY).Alive()
  {
    AfterDeadCanary(id, f);
    var n := Run(Fresh(f, Eligible), id, DeadCanary(f, Eligible));
    assert !LooksLikePause(n, id) by { assert CohortIds(n.rows) == {}; }
    ScannedAgain(n, id);
    RunThen(n, id, SCANNED_AGAIN, StartCanaryWorker(false));
    CanaryStarts(Run(n, id, SCANNED_AGAIN), id, false);
    QueuedCanaryStarts(n, id);
  }

  // ---------------------------------------------------------------- a canary and the bulk run after it

  /** The canary has verified its five items and waits for review. */
  function Reviewed(f: Files): seq<Step> {
    [StartCanaryWorker(false)] + CanarySteps(f, Eligible, Verified) + [Halt(CanaryReview)]
  }

  /** The bulk run has only the sixth item left. */
  function BulkAtWork(f: Files): seq<Step> {
    Reviewed(f) + BULK_STARTS
  }

  lemma AfterReview(id: nat, f: Files)
    requires AreSix(f)
    ensures
      At(Run(Fresh(f, Eligible), id, Reviewed(f)), CanaryReview, Table(f, Verified, Eligible, true), Idle,
         CanaryWorker(true))
  {
    var s, start := Fresh(f, Eligible), StartCanaryWorker(false);
    OneStep(s, id, start);
    CanaryStarts(s, id, false);
    CanaryOfFive(Next(s, id, start), id, f, Eligible, Verified);
    RunOn(s, id, [start], CanarySteps(f, Eligible, Verified));
    RunThen(s, id, [start] + CanarySteps(f, Eligible, Verified), Halt(CanaryReview));
    CanaryEnds(Run(s, id, [start] + CanarySteps(f, Eligible, Verified)), id);
  }

  lemma OneLeft(f: Files, last: ItemState)
    requires f.extra !in f.cohort && last.IsTransferActive()
    ensures ActiveIds(Table(f, Verified, last, true)) == {f.extra}
  {
  }

  lemma AfterBulkStart(id: nat, f: Files)
    requires AreSix(f)
    ensures
      At(Run(Fresh(f, Eligible), id, BulkAtWork(f)), Running, Table(f, Verified, Eligible, true),
         Working(false, {f.extra}), BulkWorker)
  {
    var s := Fresh(f, Eligible);
    AfterReview(id, f);
    OneLeft(f, Eligible);
    RunOn(s, id, Reviewed(f), BULK_STARTS);
    BulkStarts(Run(s, id, Reviewed(f)), id);
  }

  /** The bulk run is paused before the sixth item. */
  function PausedBulk(f: Files): seq<Step> {
    BulkAtWork(f) + [Halt(Paused)]
  }

  lemma AfterPausedBulk(id: nat, f: Files)
    requires AreSix(f)
    ensures
      At(Run(Fresh(f, Eligible), id, PausedBulk(f)), Paused, Table(f, Verified, Eligible, true), Idle, BulkWorker)
  {
    AfterBulkStart(id, f);
    RunThen(Fresh(f, Eligible), id, BulkAtWork(f), Halt(Paused));
    BulkPauses(Run(Fresh(f, Eligible), id, BulkAtWork(f)), id, {f.extra});
  }

  /** A bulk run paused twice before an item resumes as a canary. */
  lemma BulkResumesAsCanary(id: nat, f: Files)
    requires AreSix(f)
    ensures
      var s := Fresh(f, Eligible);
      var n := Run(s, id, PausedBulk(f));
      var e := Run(s, id, PausedBulk(f) + [PauseAgain] + [Resume(n.rows)]);
      n.last == Some(BulkWorker) && e.Alive() && e.last == Some(CanaryWorker(false))
  {
    AfterPausedBulk(id, f);
    var n := Run(Fresh(f, Eligible), id, PausedBulk(f));
    CohortOfTable(f, Verified, Eligible, true);
    assert !BulkStarted(n.rows);
    assert CohortIds(n.rows) != {} by { assert f.cohort != {}; }
    PausedTwiceThenResumed(Fresh(f, Eligible), id, PausedBulk(f), n.rows);
  }

  /** The bulk run has failed on the sixth item for now. */
  function BulkFailed(f: Files): seq<Step> {
    BulkAtWork(f) + [Work(Table(f, Verified, RetryableFailed, true), {f.extra})]
  }

  lemma DealsWithLast(f: Files)
    requires f.extra !in f.cohort
    ensures Deals(Table(f, Verified, Eligible, true), Table(f, Verified, RetryableFailed, true), {f.extra}, {f.extra})
  {
  }

  lemma AfterBulkFailed(id: nat, f: Files)
    requires AreSix(f)
    ensures
      At(Run(Fresh(f, Eligible), id, BulkFailed(f)), Running, Table(f, Verified, RetryableFailed, true),
         Working(false, {}), BulkWorker)
  {
    AfterBulkStart(id, f);
    DealsWithLast(f);
    RunThen(Fresh(f, Eligible), id, BulkAtWork(f), Work(Table(f, Verified, RetryableFailed, true), {f.extra}));
    BulkDeals(Run(Fresh(f, Eligible), id, BulkAtWork(f)), id, {f.extra}, Table(f, Verified, RetryableFailed, true));
  }

  /** The worker dies; the next startup pauses the job. */
  function Dies(rows: map<string, Row>): seq<Step> {
    [Crash] + [Startup(rows, false)]
  }

  lemma DiesPaused(s: State, id: nat)
    requires s.job == Job(Running, None) || s.job == Job(RunningCanary, None)
    ensures
      var n := Run(s, id, Dies(s.rows));
      n.job == Job(Paused, None) && n.rows == s.rows && n.activity == Idle && n.last == s.last && n.size == s.size
  {
    OneStep(s, id, Crash);
    RunThen(s, id, [Crash], Startup(s.rows, false));
  }

  /** The job's next worker is a canary, started from the queue, and it dies too. */
  function PausedCanary(f: Files): seq<Step> {
    var rows := Table(f, Verified, RetryableFailed, true);
    BulkFailed(f) + Dies(rows) + QUEUED_CANARY + Dies(rows)
  }

  lemma AfterPausedCanary(id: nat, f: Files)
    requires AreSix(f)
    ensures
      At(Run(Fresh(f, Eligible), id, PausedCanary(f)), Paused, Table(f, Verified, RetryableFailed, true), Idle,
         CanaryWorker(false))
  {
    var s, rows := Fresh(f, Eligible), Table(f, Verified, RetryableFailed, true);
    AfterBulkFailed(id, f);
    var failed := BulkFailed(f);
    DiesPaused(Run(s, id, failed), id);
    RunOn(s, id, failed, Dies(rows));
    QueuedCanaryStarts(Run(s, id, failed + Dies(rows)), id);
    RunOn(s, id, failed + Dies(rows), QUEUED_CANARY);
    var again := failed + Dies(rows) + QUEUED_CANARY;
    DiesPaused(Run(s, id, again), id);
    RunOn(s, id, again, Dies(rows));
  }

  /** A canary paused twice resumes as a bulk run where an earlier bulk run has left a failed item. */
  lemma CanaryResumesAsBulk(id: nat, f: Files)
    requires AreSix(f)
    ensures
      var s := Fresh(f, Eligible);
      var n := Run(s, id, PausedCanary(f));
      var e := Run(s, id, PausedCanary(f) + [PauseAgain] + [Resume(n.rows)]);
      n.last == Some(CanaryWorker(false)) && e.Alive() && e.last == Some(BulkWorker)
  {
    AfterPausedCanary(id, f);
    var n := Run(Fresh(f, Eligible), id, PausedCanary(f));
    assert n.rows[f.extra].state.RetryableFailed?;
    PausedTwiceThenResumed(Fresh(f, Eligible), id, PausedCanary(f), n.rows);
  }

  // ---------------------------------------------------------------- a retry request behind a worker

  lemma NoFailureLeft(rows: map<string, Row>)
    requires forall id :: id in rows ==> !rows[id].state.PermanentFailed?
    ensures !AnyFailed(Requeued(rows))
  {
  }

  /** The sixth item, failed for now, is reset behind the bulk worker, which completes the job without errors: the item
      is left neither transferred nor failed. */
  lemma BulkCompletesUnfinished(id: nat, f: Files)
    requires AreSix(f)
    ensures
      var n := Run(Fresh(f, Eligible), id, BulkFailed(f) + RETRIED_COMPLETES);
      n.job.status.Completed? && f.extra in n.rows && n.rows[f.extra].state.PendingOwnerRequired?
  {
    var s := Fresh(f, Eligible);
    AfterBulkFailed(id, f);
    var n := Run(s, id, BulkFailed(f));
    NoFailureLeft(n.rows);
    RunOn(s, id, BulkFailed(f), RETRIED_COMPLETES);
    RetriedCompletes(n, id, BulkWorker);
    assert n.rows[f.extra].state.RetryableFailed?;
  }

  /** An automatic canary fails on its five items for now, with nothing else to transfer. */
  function CanaryFailed(f: Files): seq<Step> {
    [StartCanaryWorker(true)] + CanarySteps(f, SkippedTrashed, RetryableFailed)
  }

  lemma AfterCanaryFailed(id: nat, f: Files)
    requires AreSix(f)
    ensures
      At(Run(Fresh(f, SkippedTrashed), id, CanaryFailed(f)), RunningCanary,
         Table(f, RetryableFailed, SkippedTrashed, true), Working(true, {}), CanaryWorker(false))
  {
    var s, start := Fresh(f, SkippedTrashed), StartCanaryWorker(true);
    OneStep(s, id, start);
    CanaryStarts(s, id, true);
    CanaryOfFive(Next(s, id, start), id, f, SkippedTrashed, RetryableFailed);
    RunOn(s, id, [start], CanarySteps(f, SkippedTrashed, RetryableFailed));
  }

  lemma CanaryStaysAll(rows: map<string, Row>)
    requires CanaryIsAll(rows)
    ensures CanaryIsAll(Requeued(rows))
  {
    forall id | id in ActiveIds(Requeued(rows)) ensures id in CohortIds(Requeued(rows)) {
      assert id in ActiveIds(rows);
    }
  }

  /** The same for the early completion of an automatic run: all five items of the canary failed and were reset, and the
      job is complete without errors. */
  lemma CanaryCompletesUnfinished(id: nat, f: Files)
    requires AreSix(f)
    ensures
      var n := Run(Fresh(f, SkippedTrashed), id, CanaryFailed(f) + RETRIED_COMPLETES);
      n.job.status.Completed? && forall x :: x in f.cohort ==> x in n.rows && n.rows[x].state.PendingOwnerRequired?
  {
    var s := Fresh(f, SkippedTrashed);
    AfterCanaryFailed(id, f);
    var n := Run(s, id, CanaryFailed(f));
    NoFailureLeft(n.rows);
    CohortOfTable(f, RetryableFailed, SkippedTrashed, true);
    ActiveInTable(f, RetryableFailed, SkippedTrashed, true);
    CanaryStaysAll(n.rows);
    RunOn(s, id, CanaryFailed(f), RETRIED_COMPLETES);
    RetriedCompletes(n, id, CanaryWorker(false));
    forall x | x in f.cohort ensures x in Requeued(n.rows) && Requeued(n.rows)[x].state.PendingOwnerRequired? {
      assert n.rows[x].state.RetryableFailed?;
    }
  }
}
