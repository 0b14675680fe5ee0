/** Job statuses and the transitions the workers and the queue use. */
module Jobs {
  import opened Items

  datatype JobStatus =
    | Draft
    | Scanning
    | ReadyForReview
    | RunningCanary
    | CanaryReview
    | Queued
    | Running
    | Pausing
    | Paused
    | Cancelling
    | Cancelled
    | Completed
    | CompletedWithErrors
    | Failed
    | AuthRequired
    | SourceRateLimited
    | WaitingForQuota
  {
    predicate IsTerminal() {
      Completed? || CompletedWithErrors? || Cancelled? || Failed?
    }

    predicate IsUnfinishedMutation() {
      RunningCanary? || Running? || Pausing? || Cancelling?
    }

    predicate IsTransferResumable() {
      Paused? || Queued? || SourceRateLimited? || WaitingForQuota? || AuthRequired?
    }
  }

  function One(holds: bool): nat {
    if holds then 1 else 0
  }

  /** Every status is of one kind: set up or in review, with a worker, resumable, or at its end. */
  lemma StatusKinds(status: JobStatus)
    ensures
      var setUp := status.Draft? || status.Scanning? || status.ReadyForReview? || status.CanaryReview?;
      One(setUp) + One(status.IsUnfinishedMutation()) + One(status.IsTransferResumable()) + One(status.IsTerminal())
        == 1
  {
  }

  datatype Job = Job(status: JobStatus, queuePosition: Option<int>)

  datatype EventKind = StatusEvent | QueueUpdated | StartupReconcile

  /** What a job has been busy with, as a resume finds it. */
  datatype RunPhase = Scan | Canary | Bulk

  /** One line of the migration event log: which job went from which status to which. */
  datatype Event = Event(jobId: nat, kind: EventKind, previous: Option<JobStatus>, next: JobStatus)

  function StartCanary(job: Job): Option<Job> {
    match job.status
    case ReadyForReview => Some(Job(RunningCanary, None))
    case Queued => Some(Job(RunningCanary, None))
    case RunningCanary => Some(job)
    case _ => None
  }

  function CompleteCanary(job: Job): Option<Job> {
    match job.status
    case RunningCanary => Some(job.(status := CanaryReview))
    case CanaryReview => Some(job)
    case _ => None
  }

  function StartBulk(job: Job): Option<Job> {
    match job.status
    case CanaryReview => Some(Job(Running, None))
    case Running => Some(job)
    case _ => None
  }

  function CompleteTransfer(job: Job, hadErrors: bool): Option<Job> {
    match job.status
    case Running => Some(job.(status := if hadErrors then CompletedWithErrors else Completed))
    case Completed => Some(job)
    case CompletedWithErrors => Some(job)
    case _ => None
  }

  function PauseSharingRateLimit(job: Job): Option<Job> {
    match job.status
    case RunningCanary => Some(job.(status := SourceRateLimited))
    case Running => Some(job.(status := SourceRateLimited))
    case SourceRateLimited => Some(job)
    case _ => None
  }

  function WaitForQuota(job: Job): Option<Job> {
    match job.status
    case RunningCanary => Some(job.(status := WaitingForQuota))
    case Running => Some(job.(status := WaitingForQuota))
    case WaitingForQuota => Some(job)
    case _ => None
  }

  function RequireAuth(job: Job): Option<Job> {
    if job.status.IsUnfinishedMutation() || (job.status.IsTransferResumable() && !job.status.AuthRequired?) then
      Some(Job(AuthRequired, None))
    else if job.status.AuthRequired? then Some(job)
    else None
  }

  function PauseTransfer(job: Job): Option<Job> {
    if job.status.IsUnfinishedMutation() then Some(Job(Paused, None))
    else if job.status.Paused? then Some(job)
    else None
  }

  function ResumeTransfer(job: Job, asCanary: bool): Option<Job> {
    if job.status.IsTransferResumable() then Some(Job(if asCanary then RunningCanary else Running, None))
    else if (job.status.RunningCanary? && asCanary) || (job.status.Running? && !asCanary) then Some(job)
    else None
  }

  function Enqueue(job: Job, position: int): Option<Job> {
    match job.status
    case ReadyForReview => Some(Job(Queued, Some(position)))
    case CanaryReview => Some(Job(Queued, Some(position)))
    case _ => if job.status.IsTransferResumable() then Some(Job(Queued, Some(position))) else None
  }

  function RemoveFromQueue(job: Job, restored: JobStatus): Option<Job> {
    if job.status.Queued? && (restored.ReadyForReview? || restored.CanaryReview? || restored.Paused?) then
      Some(Job(restored, None))
    else None
  }

  function CancelJob(job: Job): Option<Job> {
    if job.status.Cancelled? then Some(job)
    else if job.status.IsTerminal() then None
    else Some(Job(JobStatus.Cancelled, None))
  }

  /** Nothing the workers or the queue do takes a job out of a status that ends it. */
  lemma TerminalIsFinal(job: Job, position: int, hadErrors: bool, asCanary: bool, restored: JobStatus)
    requires job.status.IsTerminal()
    ensures
      forall after ::
        (|| StartCanary(job) == Some(after) || CompleteCanary(job) == Some(after) || StartBulk(job) == Some(after)
         || CompleteTransfer(job, hadErrors) == Some(after) || PauseSharingRateLimit(job) == Some(after)
         || WaitForQuota(job) == Some(after) || RequireAuth(job) == Some(after) || PauseTransfer(job) == Some(after)
         || ResumeTransfer(job, asCanary) == Some(after) || Enqueue(job, position) == Some(after)
         || RemoveFromQueue(job, restored) == Some(after) || CancelJob(job) == Some(after)) ==>
          after == job
  {
  }

  predicate Restorable(status: JobStatus) {
    status.ReadyForReview? || status.Paused? || status.CanaryReview?
  }

  /** A job may be queued exactly from where it could be resumed or the queue could put it back, and whatever the queue
      puts back may be queued again. */
  lemma QueueableWhereRestorable(job: Job, position: int, restored: JobStatus)
    ensures Enqueue(job, position).Some? <==> job.status.IsTransferResumable() || Restorable(job.status)
    ensures
      Enqueue(job, position).Some? ==>
        var queued := Enqueue(job, position).value;
        && queued == Job(Queued, Some(position))
        && (if Restorable(restored) then RemoveFromQueue(queued, restored) == Some(Job(restored, None))
            else RemoveFromQueue(queued, restored).None?)
        && (Restorable(restored) ==> Enqueue(Job(restored, None), position) == Some(queued))
  {
  }
}
