/** One job after its scan, as a state machine: its workers, the requests about it, crashes and startups, with its
    status, its event log and its item table. */
module JobSteps {
  import opened Items
  import opened Jobs
  import opened Queue
  import opened DriveModel
  import opened TransferModel

  // ---------------------------------------------------------------- what the store tells a resume

  /** The item table shows a bulk run: an item outside the canary is in the middle of its transfer, or failed. */
  predicate BulkStarted(rows: map<string, Row>) {
    exists id :: id in rows && !rows[id].canary && !rows[id].state.Eligible? && rows[id].state.IsTransferActive()
  }

  /** The phase the latest status event tells; `bulkStarted` is what the item table suggests when it tells nothing. */
  predicate TellsCanary(latest: Option<Event>, bulkStarted: bool) {
    match latest
    case Some(e) =>
      if e.previous == Some(Running) || e.next.Running? || e.next.CanaryReview? || e.previous == Some(CanaryReview)
      then false
      else if e.previous == Some(RunningCanary) || e.next.RunningCanary? then true
      else !bulkStarted
    case None => !bulkStarted
  }

  predicate ShouldResumeAsCanary(s: State, id: nat) {
    TellsCanary(LatestStatusEvent(s.log, id), BulkStarted(s.rows))
  }

  /** A scanned job has no scan checkpoints left. */
  function SignsOf(rows: map<string, Row>): Signs {
    Signs(CohortIds(rows) != {}, false, BulkStarted(rows))
  }

  predicate LooksLikePause(s: State, id: nat) {
    LooksLikeTransferPause(LatestStatusEvent(s.log, id), SignsOf(s.rows))
  }

  /** The phase a job is in; a resume is refused in the scan phase. */
  function PhaseOf(s: State, id: nat): RunPhase {
    var told := if ShouldResumeAsCanary(s, id) then Canary else Bulk;
    match s.job.status
    case Draft => Scan
    case Scanning => Scan
    case ReadyForReview => Scan
    case RunningCanary => Canary
    case CanaryReview => Canary
    case Running => Bulk
    case Pausing => Bulk
    case Cancelling => Bulk
    case Queued => if QueuedFrom(s.log, id) == Some(Paused) && !LooksLikePause(s, id) then Scan else told
    case Paused => if !LooksLikePause(s, id) then Scan else told
    case _ => if told.Canary? || LooksLikePause(s, id) || BulkStarted(s.rows) then told else Scan
  }

  // ---------------------------------------------------------------- what may be saved of the items

  /** A canary has chosen its batch and saved it as such: what is unfinished of an earlier cohort, else all that is
      under way, else as many items as asked for. */
  predicate Selects(a: map<string, Row>, b: map<string, Row>, batch: set<string>, size: nat) {
    && SelectedFrom(a, b) && batch == ActiveCohort(b)
    && if CohortIds(a) != {} then b == a
       else if UnderWay(a) != {} then batch == UnderWay(a)
       else
         && batch <= ActiveIds(a) && (|batch| == size || (|batch| < size && batch == ActiveIds(a)))
         && forall id :: id in batch ==> b[id].state.PendingOwnerRequired?
  }

  /** A canary was stopped while it saved its batch. */
  predicate SelectsPart(a: map<string, Row>, b: map<string, Row>, size: nat) {
    && SelectedFrom(a, b) && CohortIds(a) == {}
    && if UnderWay(a) != {} then CohortIds(b) <= UnderWay(a) else |CohortIds(b)| <= size
  }

  /** A worker has dealt with some of the items left to it, and perhaps begun one more. */
  predicate Deals(a: map<string, Row>, b: map<string, Row>, left: set<string>, done: set<string>) {
    && done <= left && b.Keys == a.Keys
    && (forall id :: id in a && id !in left ==> b[id] == a[id])
    && (forall id :: id in left ==> id in a && SameItem(a[id], b[id]))
    && (forall id :: id in done ==> Settled(b[id]))
    && (forall x, y :: x in left - done && y in left - done && b[x] != a[x] && b[y] != a[y] ==> x == y)
  }

  predicate LookedAt(a: Row, b: Row) {
    && a.state.IsIntermediateCheckpoint() && SameItem(a, b)
    && (b.state == a.state || b.state.Verifying? || b.state.AcceptRequired? || b.state.SkippedTrashed?
        || b.state.PermanentFailed?)
  }

  /** Items an interruption left between two steps have been looked at, any number of them. */
  predicate LooksOver(a: map<string, Row>, b: map<string, Row>) {
    b.Keys == a.Keys && forall id :: id in a ==> b[id] == a[id] || LookedAt(a[id], b[id])
  }

  // ---------------------------------------------------------------- states and steps

  /** The worker a job had last, and whether its canary reached review. */
  datatype Worker = CanaryWorker(reviewed: bool) | BulkWorker

  /** What the job's worker is at: it has started, it is saving its canary, or these items are left to it. An automatic
      canary goes on to the bulk run by itself. */
  datatype Activity = Idle | Opening(auto: bool) | Selecting | Working(auto: bool, left: set<string>)

  datatype State = State(
    job: Job, size: nat, log: seq<Event>, rows: map<string, Row>, activity: Activity, last: Option<Worker>)
  {
    predicate Alive() {
      !activity.Idle?
    }
  }

  datatype Step =
    | StartCanaryWorker(auto: bool)
    | StartBulkWorker
    | Resume(rows: map<string, Row>)         // the items as its look at them leaves them
    | ResumeRefused(rows: map<string, Row>)  // a refused token stops the look
    | ResumeFails(rows: map<string, Row>)    // any other fault stops the look
    | Select(rows: map<string, Row>, batch: set<string>)
    | SelectPart(rows: map<string, Row>)
    | ReadSlice                              // a bulk worker lists what is still to be transferred
    | Work(rows: map<string, Row>, done: set<string>)
    | AdvanceToBulk                          // an automatic canary whose whole cohort is verified
    | Halt(status: JobStatus)
    | PauseIdle                              // a pause request for an unfinished job with no worker
    | PauseAgain                             // a pause request for a paused job
    | CancelIdle                             // a cancel request for a job with no worker
    | RetryFailed
    | Crash
    | Startup(rows: map<string, Row>, authFailed: bool)
    | StartScan
    | EndScan(status: JobStatus)
    | PutInQueue(position: int)
    | TakeFromQueue
    | OtherEvent(event: Event)               // events of other jobs

  function Logged(s: State, id: nat, kind: EventKind, job: Job): State {
    s.(job := job, log := s.log + [Event(id, kind, Some(s.job.status), job.status)])
  }

  function Started(s: State, id: nat, job: Job, worker: Worker, auto: bool): State {
    Logged(s, id, StatusEvent, job).(activity := Opening(auto), last := Some(worker))
  }

  /** Nothing is left to the worker. */
  predicate IsThrough(s: State) {
    s.activity.Working? && s.activity.left == {}
  }

  /** The worker stands before an item. */
  predicate StandsBefore(s: State) {
    s.activity.Working? && s.activity.left != {}
  }

  predicate CanComplete(s: State, worker: Worker) {
    && IsThrough(s)
    && match worker
       case CanaryWorker(_) => s.activity.auto && CanaryIsAll(s.rows)
       case BulkWorker => true
  }

  /** The statuses in which a worker may leave its job: a request or trouble ends it before an item, exhaustion when
      none is left, and a fault at any time, which leaves the status as it is. */
  predicate CanHalt(s: State, worker: Worker, status: JobStatus) {
    match status
    case Paused => StandsBefore(s)
    case Cancelled => StandsBefore(s)
    case SourceRateLimited => StandsBefore(s)
    case WaitingForQuota => StandsBefore(s)
    case AuthRequired => StandsBefore(s)
    case RunningCanary => worker.CanaryWorker?
    case Running => worker.BulkWorker?
    case CanaryReview => worker.CanaryWorker? && IsThrough(s)
    case Completed => CanComplete(s, worker) && !FailedFor(s.rows, worker)
    case CompletedWithErrors => CanComplete(s, worker) && FailedFor(s.rows, worker)
    case _ => false
  }

  /** A canary counts the failures of its cohort, a bulk run those of the whole job. */
  predicate FailedFor(rows: map<string, Row>, worker: Worker) {
    exists id :: id in rows && IsFailed(rows[id]) && (worker.CanaryWorker? ==> rows[id].canary)
  }

  predicate MayResume(s: State, id: nat, rows: map<string, Row>) {
    !s.Alive() && s.job.status.IsTransferResumable() && !PhaseOf(s, id).Scan? && LooksOver(s.rows, rows)
  }

  /** Some item is where only a look at Drive tells how its transfer stands. */
  predicate HasCheckpoint(rows: map<string, Row>) {
    exists id :: id in rows && rows[id].state.IsIntermediateCheckpoint()
  }

  /** A worker's own steps. */
  function WorkerNext(s: State, id: nat, step: Step): State
    requires s.Alive()
  {
    match step
    case Select(rows, batch) =>
      if s.activity.Opening? && s.last == Some(CanaryWorker(false)) && Selects(s.rows, rows, batch, s.size) then
        s.(rows := rows, activity := Working(s.activity.auto, batch))
      else s
    case SelectPart(rows) =>
      if s.activity.Opening? && s.last == Some(CanaryWorker(false)) && SelectsPart(s.rows, rows, s.size) then
        s.(rows := rows, activity := Selecting)
      else s
    case ReadSlice =>
      if s.activity.Opening? && s.last == Some(BulkWorker) then s.(activity := Working(false, ActiveIds(s.rows))) else s
    case Work(rows, done) =>
      if s.activity.Working? && Deals(s.rows, rows, s.activity.left, done) then
        s.(rows := rows, activity := s.activity.(left := s.activity.left - done))
      else s
    case AdvanceToBulk =>
      if s.last == Some(CanaryWorker(false)) && IsThrough(s) && s.activity.auto && !CanaryIsAll(s.rows)
         && CanaryIsVerified(s.rows) then
        s.(job := Job(Running, None), log := s.log + [Event(id, StatusEvent, Some(CanaryReview), Running)],
           activity := Opening(false), last := Some(BulkWorker))
      else s
    case Halt(status) =>
      if s.last.None? || !CanHalt(s, s.last.value, status) then s
      else
        Logged(s, id, StatusEvent, Job(status, s.job.queuePosition))
          .(rows := if status.Cancelled? then GivenUp(s.rows) else s.rows,
            activity := Idle,
            last := Some(if s.last.value.CanaryWorker? then CanaryWorker(status.CanaryReview?) else BulkWorker))
    case RetryFailed => s.(rows := Requeued(s.rows))
    case Crash => s.(activity := Idle)
    case OtherEvent(event) => if event.jobId == id then s else s.(log := s.log + [event])
    case _ => s
  }

  /** Requests about a job with no worker, startups and the queue. */
  function IdleNext(s: State, id: nat, step: Step): State
    requires !s.Alive()
  {
    match step
    case StartCanaryWorker(auto) =>
      var started := StartCanary(s.job);
      if started.None? || (auto && !s.job.status.ReadyForReview?) then s
      else Started(s, id, started.value, CanaryWorker(false), auto)
    case StartBulkWorker =>
      var started := if s.job.status.Queued? then ResumeTransfer(s.job, false) else StartBulk(s.job);
      if started.None? || (s.job.status.Queued? && ShouldResumeAsCanary(s, id)) then s
      else Started(s, id, started.value, BulkWorker, false)
    case Resume(rows) =>
      var asCanary := ShouldResumeAsCanary(s, id);
      if !MayResume(s, id, rows) then s
      else
        Started(s.(rows := rows), id, ResumeTransfer(s.job, asCanary).value,
                if asCanary then CanaryWorker(false) else BulkWorker, false)
    case ResumeRefused(rows) =>
      if !MayResume(s, id, rows) || !HasCheckpoint(s.rows) then s
      else Logged(s.(rows := rows), id, StatusEvent, RequireAuth(s.job).value)
    case ResumeFails(rows) => if MayResume(s, id, rows) then s.(rows := rows) else s
    case PauseIdle =>
      if !(s.job.status.RunningCanary? || s.job.status.Running?) then s
      else Logged(s, id, StatusEvent, PauseTransfer(s.job).value)
    case PauseAgain =>
      if s.job.status.Paused? then Logged(s, id, StatusEvent, PauseTransfer(s.job).value) else s
    case CancelIdle =>
      var given := s.(rows := GivenUp(s.rows));
      if CancelJob(s.job).None? then given else Logged(given, id, StatusEvent, CancelJob(s.job).value)
    case RetryFailed => s.(rows := Requeued(s.rows))
    case Startup(rows, authFailed) =>
      if s.job.status.Scanning? then Logged(s, id, StartupReconcile, s.job.(status := Paused))
      else if !s.job.status.IsUnfinishedMutation() || !LooksOver(s.rows, rows) then s
      else
        Logged(s.(rows := rows), id, StartupReconcile,
               (if authFailed then RequireAuth(s.job) else PauseTransfer(s.job)).value)
    case StartScan =>
      if s.job.status.Paused? && !LooksLikePause(s, id) then s.(job := s.job.(status := Scanning)) else s
    case EndScan(status) =>
      if s.job.status.Scanning? && (status.ReadyForReview? || status.Paused? || status.Failed?) then
        s.(job := s.job.(status := status))
      else s
    case PutInQueue(position) =>
      if Enqueue(s.job, position).None? then s
      else Logged(s, id, EventKind.QueueUpdated, Enqueue(s.job, position).value)
    case TakeFromQueue =>
      var restored := RestoredStatus(QueuedFrom(s.log, id), LatestStatusEvent(s.log, id), SignsOf(s.rows));
      if !s.job.status.Queued? then s
      else Logged(s, id, EventKind.QueueUpdated, RemoveFromQueue(s.job, restored).value)
    case OtherEvent(event) => if event.jobId == id then s else s.(log := s.log + [event])
    case _ => s
  }

  function Next(s: State, id: nat, step: Step): State {
    if s.Alive() then WorkerNext(s, id, step) else IdleNext(s, id, step)
  }

  function Run(s: State, id: nat, steps: seq<Step>): State {
    if steps == [] then s else Next(Run(s, id, steps[..|steps| - 1]), id, steps[|steps| - 1])
  }

  /** A job fresh from its scan, whatever the log says of others. */
  predicate Scanned(s: State) {
    s.job.status.ReadyForReview? && !s.Alive() && s.last.None?
  }

  lemma RunThen(s: State, id: nat, steps: seq<Step>, step: Step)
    ensures Run(s, id, steps + [step]) == Next(Run(s, id, steps), id, step)
  {
    assert (steps + [step])[..|steps|] == steps;
  }

  lemma {:induction false} RunOn(s: State, id: nat, steps: seq<Step>, more: seq<Step>)
    ensures Run(s, id, steps + more) == Run(Run(s, id, steps), id, more)
  {
    if more == [] {
      assert steps + more == steps;
    } else {
      var rest := more[..|more| - 1];
      RunOn(s, id, steps, rest);
      assert steps + more == (steps + rest) + [more[|more| - 1]];
      RunThen(s, id, steps + rest, more[|more| - 1]);
    }
  }

  // ---------------------------------------------------------------- the steps are those of the transfer

  /** One item's step of a transfer run is a step of the worker here, and settles the item unless it stops the run. */
  lemma ItemStepIsWork(mode: Mode, a: World, b: World, left: set<string>, id: string, step: StepResult)
    requires Within(mode, a, b, id, 70, 759) && EndsAs(step, b.rows[id]) && id in left && left <= a.rows.Keys
    requires forall x :: x in left ==> a.rows[x].fileId == x
    ensures Deals(a.rows, b.rows, left, if step.Done? || step.Failed? then {id} else {})
  {
    SameElsewhere(a.rows, b.rows, id);
  }

  /** A look at one interrupted item is a look here. */
  lemma ReadingLooksOver(rows: map<string, Row>, item: Row, s: DriveModel.Snapshot, who: Parties)
    requires Saved(item, rows) && item.state.IsIntermediateCheckpoint()
    ensures LooksOver(rows, rows[item.fileId := Reconciled(item, s, who)])
  {
    ReconciledFits(item, s, who);
  }

  lemma {:induction false} DistinctCount(batch: seq<Row>, ids: set<string>)
    requires forall j, k :: 0 <= j < k < |batch| ==> batch[j].fileId != batch[k].fileId
    requires forall k :: 0 <= k < |batch| ==> batch[k].fileId in ids
    requires Covers(batch, ids)
    ensures |ids| == |batch|
    decreases |batch|
  {
    if batch == [] {
      assert ids == {} by { assert forall id :: id in ids ==> |batch| > 0; }
    } else {
      var n := |batch| - 1;
      var rest, others := batch[..n], ids - {batch[n].fileId};
      forall id | id in others ensures exists k :: 0 <= k < |rest| && rest[k].fileId == id {
        var k :| 0 <= k < |batch| && batch[k].fileId == id;
        assert rest[k].fileId == id;
      }
      DistinctCount(rest, others);
    }
  }

  /** What the selection of a canary promises makes it a selection here. */
  lemma SelectionIsStep(a: map<string, Row>, b: map<string, Row>, batch: seq<Row>, size: nat)
    requires SelectedFrom(a, b) && Slice(batch, ActiveCohort(b), b) && Covers(batch, ActiveCohort(b))
    requires CohortIds(a) != {} ==> b == a
    requires CohortIds(a) == {} ==> Picks(a, batch, size)
    ensures Selects(a, b, ActiveCohort(b), size)
  {
    DistinctCount(batch, ActiveCohort(b));
    if CohortIds(a) == {} {
      assert ActiveCohort(b) <= ActiveIds(a);
      if UnderWay(a) != {} {
        AllUnderWay(a, b, batch);
      } else if size >= |ActiveIds(a)| {
        SubsetOfSameSize(ActiveCohort(b), ActiveIds(a));
      }
      forall id | id in ActiveCohort(b) && UnderWay(a) == {} ensures b[id].state.PendingOwnerRequired? {
        var k :| 0 <= k < |batch| && batch[k].fileId == id;
      }
    }
  }

  lemma AllUnderWay(a: map<string, Row>, b: map<string, Row>, batch: seq<Row>)
    requires Slice(batch, ActiveCohort(b), b) && Covers(batch, ActiveCohort(b)) && Covers(batch, UnderWay(a))
    requires forall k :: 0 <= k < |batch| ==> batch[k].fileId in UnderWay(a)
    ensures ActiveCohort(b) == UnderWay(a)
  {
    forall id ensures id in ActiveCohort(b) <==> id in UnderWay(a) {
      if id in ActiveCohort(b) { var k :| 0 <= k < |batch| && batch[k].fileId == id; }
      if id in UnderWay(a) { var k :| 0 <= k < |batch| && batch[k].fileId == id; }
    }
  }

  lemma SubsetOfSameSize(a: set<string>, b: set<string>)
    requires a <= b && |a| == |b|
    ensures a == b
  {
    assert |b - a| == |b| - |a|;
  }
}
