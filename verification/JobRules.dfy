/** What the life of a job keeps besides its phase: how its workers end, what cancelling leaves, and how it goes on. */
module JobRules {
  import opened Items
  import opened Jobs
  import opened Queue
  import opened TransferModel
  import opened JobSteps
  import opened PhaseRecovery
  import DriveModel
  import TransferJobs

  // ---------------------------------------------------------------- how a worker ends

  /** A worker stops for this where it stands: with nothing left, or before an item. */
  predicate StopsFor(s: State, halt: Halt) {
    if halt.Exhausted? then IsThrough(s) else StandsBefore(s)
  }

  /** The statuses in which a worker may leave an unfinished job are the one of its phase, after a fault, and those that
      the ends of a transfer run leave it in. */
  lemma HaltsAreEnds(s: State, worker: Worker, status: JobStatus)
    requires !status.Completed? && !status.CompletedWithErrors?
    ensures
      CanHalt(s, worker, status) <==>
        || status == (if worker.CanaryWorker? then RunningCanary else Running)
        || exists halt :: TransferJobs.Leaves(halt, worker.CanaryWorker?, status) && StopsFor(s, halt)
  {
    var halt := EndIn(status);
    if CanHalt(s, worker, status) && !status.RunningCanary? && !status.Running? {
      assert TransferJobs.Leaves(halt, worker.CanaryWorker?, status) && StopsFor(s, halt);
    }
  }

  /** An end that leaves a job in this status. */
  function EndIn(status: JobStatus): Halt {
    match status
    case Paused => PauseRequested
    case Cancelled => CancelRequested
    case SourceRateLimited => InTrouble(SharingRateLimited)
    case WaitingForQuota => InTrouble(Trouble.WaitingForQuota)
    case AuthRequired => InTrouble(Trouble.AuthRequired(DriveModel.Source))
    case _ => Exhausted(0, 0)
  }

  /** A worker completes its job with nothing left, a canary only by itself and as all there was; it reports errors as
      the end of a run does, from its cohort or from the whole job. */
  lemma CompletionsAreEnds(s: State, worker: Worker, status: JobStatus, cohort: seq<Row>)
    requires Keyed(s.rows) && Slice(cohort, CohortIds(s.rows), s.rows) && Covers(cohort, CohortIds(s.rows))
    requires status.Completed? || status.CompletedWithErrors?
    ensures
      var hadErrors := if worker.CanaryWorker? then TransferJobs.AnyFailedIn(cohort) else AnyFailed(s.rows);
      CanHalt(s, worker, status) <==>
        && IsThrough(s) && (worker.CanaryWorker? ==> s.activity.auto && CanaryIsAll(s.rows))
        && CompleteTransfer(Job(Running, None), hadErrors) == Some(Job(status, None))
  {
    if worker.CanaryWorker? { CohortFailures(s.rows, worker, cohort); }
  }

  lemma CohortFailures(rows: map<string, Row>, worker: Worker, cohort: seq<Row>)
    requires Slice(cohort, CohortIds(rows), rows) && Covers(cohort, CohortIds(rows)) && worker.CanaryWorker?
    ensures FailedFor(rows, worker) <==> TransferJobs.AnyFailedIn(cohort)
  {
    if FailedFor(rows, worker) {
      var id :| id in rows && IsFailed(rows[id]) && rows[id].canary;
      assert id in CohortIds(rows);
      var k :| 0 <= k < |cohort| && cohort[k].fileId == id;
      assert IsFailed(cohort[k]);
    }
    if TransferJobs.AnyFailedIn(cohort) {
      var k :| 0 <= k < |cohort| && IsFailed(cohort[k]);
      assert rows[cohort[k].fileId] == cohort[k] && cohort[k].fileId in CohortIds(rows);
    }
  }

  // ---------------------------------------------------------------- while a worker is at it

  /** In every run, a job with a worker is in the phase of that worker, and one in canary review is in its canary. */
  lemma WorkerNamesPhase(s: State, id: nat, steps: seq<Step>)
    requires Scanned(s)
    ensures
      var n := Run(s, id, steps);
      && (n.Alive() ==> n.last.Some? && PhaseOf(n, id) == if n.last.value.CanaryWorker? then Canary else Bulk)
      && (n.job.status.CanaryReview? ==> PhaseOf(n, id).Canary?)
  {
    RunKeepsPhase(s, id, steps);
  }

  /** The item table looks like that of a bulk run exactly when something is under way outside the canary. */
  lemma BulkIsUnderWayOutside(rows: map<string, Row>)
    ensures BulkStarted(rows) <==> UnderWay(rows) - CohortIds(rows) != {}
  {
    if BulkStarted(rows) {
      var id :| id in rows && !rows[id].canary && !rows[id].state.Eligible? && rows[id].state.IsTransferActive();
      assert id in UnderWay(rows) - CohortIds(rows);
    }
  }

  /** Whatever a first canary does to its batch, the item table does not look like that of a bulk run. */
  lemma CanaryShowsNoBulk(
    a: map<string, Row>, b: map<string, Row>, c: map<string, Row>, batch: set<string>, size: nat, done: set<string>)
    requires CohortIds(a) == {} && UnderWay(a) == {} && Selects(a, b, batch, size) && Deals(b, c, batch, done)
    ensures !BulkStarted(c)
  {
    forall id | id in c && !c[id].canary && !c[id].state.Eligible? ensures !c[id].state.IsTransferActive() {
      assert id !in batch;
      assert c[id] == b[id] == a[id] && id !in UnderWay(a);
    }
  }

  predicate StartsAnew(step: Step) {
    step.StartCanaryWorker? || step.StartBulkWorker? || step.Resume?
  }

  /** A canary turns into a bulk run by itself only after a moment at which its whole cohort was verified. */
  lemma {:induction false} BulkOnlyAfterVerifiedCanary(s: State, id: nat, steps: seq<Step>)
    requires s.Alive() && s.last == Some(CanaryWorker(false)) && forall step :: step in steps ==> !StartsAnew(step)
    ensures
      Run(s, id, steps).last == Some(BulkWorker) ==>
        exists k :: 0 <= k <= |steps| && CanaryIsVerified(Run(s, id, steps[..k]).rows)
  {
    if steps != [] && Run(s, id, steps).last == Some(BulkWorker) {
      var n := |steps| - 1;
      BulkOnlyAfterVerifiedCanary(s, id, steps[..n]);
      assert steps[n] in steps;
      if Run(s, id, steps[..n]).last == Some(BulkWorker) {
        var k :| 0 <= k <= n && CanaryIsVerified(Run(s, id, steps[..n][..k]).rows);
        assert steps[..n][..k] == steps[..k];
      } else {
        BecomesBulk(Run(s, id, steps[..n]), id, steps[n]);
      }
    }
  }

  lemma BecomesBulk(s: State, id: nat, step: Step)
    requires s.last != Some(BulkWorker) && !StartsAnew(step) && Next(s, id, step).last == Some(BulkWorker)
    ensures CanaryIsVerified(s.rows) && !CanaryIsAll(s.rows)
  {
    if !s.Alive() { IdleKeepsWorker(s, id, step); }
  }

  lemma IdleKeepsWorker(s: State, id: nat, step: Step)
    requires !s.Alive() && !StartsAnew(step)
    ensures IdleNext(s, id, step).last == s.last
  {
  }

  // ---------------------------------------------------------------- cancelling

  predicate NothingToStart(s: State) {
    s.job.status.Cancelled? ==> forall id :: id in s.rows ==> !IsUnstarted(s.rows[id].state)
  }

  lemma WorkerLeavesNothing(s: State, id: nat, step: Step)
    requires Inv(s, id) && s.Alive()
    ensures NothingToStart(Next(s, id, step))
  {
  }

  lemma IdleLeavesNothing(s: State, id: nat, step: Step)
    requires NothingToStart(s) && !s.Alive()
    ensures NothingToStart(Next(s, id, step))
  {
  }

  /** In every run, once a job is cancelled no item of it is left to be begun or tried again, whatever is asked for
      afterwards; what was in the middle of its transfer stays there. */
  lemma {:induction false} CancelledHasNothingToStart(s: State, id: nat, steps: seq<Step>)
    requires Scanned(s)
    ensures NothingToStart(Run(s, id, steps))
  {
    if steps != [] {
      var before, step := steps[..|steps| - 1], steps[|steps| - 1];
      CancelledHasNothingToStart(s, id, before);
      RunKeepsPhase(s, id, before);
      var n := Run(s, id, before);
      if n.Alive() { WorkerLeavesNothing(n, id, step); } else { IdleLeavesNothing(n, id, step); }
    }
  }

  // ---------------------------------------------------------------- going on

  /** A startup leaves no job with the status of a worker: it has to sign in again exactly if a token was refused, and
      is paused otherwise, with its items as the looks left them. */
  lemma StartupSettles(s: State, id: nat, rows: map<string, Row>, authFailed: bool)
    requires !s.Alive() && s.job.status.IsUnfinishedMutation() && LooksOver(s.rows, rows)
    ensures
      var n := Next(s, id, Startup(rows, authFailed));
      && n.job == Job(if authFailed then JobStatus.AuthRequired else Paused, None) && n.rows == rows && n.last == s.last
      && n.job.status.IsTransferResumable()
  {
  }

  /** A resume that fails changes nothing but what its looks have saved. */
  lemma FailedResumeKeepsLooks(s: State, id: nat, rows: map<string, Row>)
    requires MayResume(s, id, rows)
    ensures
      var n := Next(s, id, ResumeFails(rows));
      n.rows == rows && n.job == s.job && n.log == s.log && n.last == s.last && !n.Alive()
  {
  }

  /** In every run, a job whose worker has died is paused by a request, and then resumes in the phase it was in. */
  lemma DeadWorkerGoesOn(s: State, id: nat, steps: seq<Step>)
    requires Scanned(s)
    requires
      var n := Run(s, id, steps);
      !n.Alive() && (n.job.status.RunningCanary? || n.job.status.Running?)
    ensures
      var n := Run(s, id, steps);
      var p := Next(n, id, PauseIdle);
      var e := Next(p, id, Resume(p.rows));
      && p.job == Job(Paused, None) && p.rows == n.rows && !p.Alive()
      && e.Alive() && e.job.status == n.job.status && WasCanary(e) == n.job.status.RunningCanary?
  {
    RunKeepsPhase(s, id, steps);
    var n := Run(s, id, steps);
    var p := Next(n, id, PauseIdle);
    Appended(n, id, p);
    ResumeStarts(p, id, p.rows);
  }

  predicate NamesOnlyCanary(e: Event) {
    && !e.next.Running? && !e.next.CanaryReview?
    && (e.previous.Some? ==> !e.previous.value.Running? && !e.previous.value.CanaryReview?)
  }

  /** An event that names a phase tells of a canary exactly if it names none of what follows one. */
  lemma TellsByName(e: Event, bulkStarted: bool)
    ensures TellsCanary(Some(e), bulkStarted) <==> if NamesPhase(Some(e)) then NamesOnlyCanary(e) else !bulkStarted
  {
  }

  /** A refused token can stop a resume only where there is something to look at, and the job then has to sign in. */
  lemma RefusedResumeSignsIn(s: State, id: nat, rows: map<string, Row>)
    requires MayResume(s, id, rows)
    ensures
      var n := Next(s, id, ResumeRefused(rows));
      if exists x :: x in UnderWay(s.rows) && s.rows[x].state.IsIntermediateCheckpoint() then
        n.job.status.AuthRequired? && n.rows == rows && |n.log| == |s.log| + 1
      else n == s
  {
    assert HasCheckpoint(s.rows) ==> exists x :: x in UnderWay(s.rows) && s.rows[x].state.IsIntermediateCheckpoint();
  }

  /** In every run, a queued job that has had a worker, and whose newest status event names a phase, is started as a
      bulk run exactly if it was not in its canary. */
  lemma QueuedStartsInItsPhase(s: State, id: nat, steps: seq<Step>)
    requires Scanned(s)
    requires
      var n := Run(s, id, steps);
      n.job.status.Queued? && n.last.Some? && NamesPhase(LatestStatusEvent(n.log, id))
    ensures
      var n := Run(s, id, steps);
      Next(n, id, StartBulkWorker).last == Some(BulkWorker) && Next(n, id, StartBulkWorker).Alive() <==> !WasCanary(n)
  {
    RunKeepsPhase(s, id, steps);
  }

  /** A paused job goes on in one way only: a resume starts a worker exactly when the job cannot be scanned again. */
  lemma PausedGoesOneWay(s: State, id: nat, rows: map<string, Row>)
    requires !s.Alive() && s.job.status.Paused? && LooksOver(s.rows, rows)
    ensures Next(s, id, Resume(rows)).Alive() <==> !Next(s, id, StartScan).job.status.Scanning?
  {
    ResumeStarts(s, id, rows);
  }
}
