/** Whether a stopped job can be resumed, and in which phase, from its event log and its item table. */
module PhaseRecovery {
  import opened Items
  import opened Jobs
  import opened Queue
  import opened TransferModel
  import opened JobSteps

  // ---------------------------------------------------------------- the phase a resume finds

  /** The status names the phase of the last worker while one is running or was cut off. */
  predicate StatusFits(s: State) {
    && (s.Alive() ==> s.last.Some? && s.job.status == if s.last.value.CanaryWorker? then RunningCanary else Running)
    && (s.Alive() ==> s.last != Some(CanaryWorker(true)))
    && (s.job.status.RunningCanary? ==> s.last == Some(CanaryWorker(false)))
    && (s.job.status.Running? ==> s.last == Some(BulkWorker))
  }

  predicate WasCanary(s: State) {
    s.last == Some(CanaryWorker(false))
  }

  predicate Names(status: JobStatus) {
    status.Running? || status.RunningCanary? || status.CanaryReview?
  }

  /** The newest status event of the job names a phase. */
  predicate NamesPhase(latest: Option<Event>) {
    latest.Some? && (Names(latest.value.next) || (latest.value.previous.Some? && Names(latest.value.previous.value)))
  }

  predicate InPhase(s: State) {
    s.last.Some? && !s.job.status.IsTerminal()
  }

  /** When the newest status event names a phase, it is that of the last worker, whatever the item table suggests. */
  predicate Recovers(s: State, id: nat) {
    var latest := LatestStatusEvent(s.log, id);
    InPhase(s) && NamesPhase(latest) ==> forall bulkStarted :: TellsCanary(latest, bulkStarted) == WasCanary(s)
  }

  predicate NoPausing(s: State) {
    !s.job.status.Pausing? && !s.job.status.Cancelling?
  }

  predicate Inv(s: State, id: nat) {
    StatusFits(s) && Recovers(s, id) && NoPausing(s)
  }

  lemma LatestIsAppended(log: seq<Event>, e: Event, id: nat)
    ensures LatestStatusEvent(log + [e], id) ==
            if e.jobId == id && e.kind.StatusEvent? then Some(e) else LatestStatusEvent(log, id)
  {
    assert (log + [e])[..|log|] == log;
  }

  lemma Appended(s: State, id: nat, n: State)
    requires |n.log| == |s.log| + 1 && s.log <= n.log
    ensures
      var e := n.log[|s.log|];
      LatestStatusEvent(n.log, id) ==
        if e.jobId == id && e.kind.StatusEvent? then Some(e) else LatestStatusEvent(s.log, id)
  {
    assert n.log == s.log + [n.log[|s.log|]];
    LatestIsAppended(s.log, n.log[|s.log|], id);
  }

  lemma WorkerKeepsPhase(s: State, id: nat, step: Step)
    requires Inv(s, id) && s.Alive()
    ensures Inv(Next(s, id, step), id)
  {
    var n := WorkerNext(s, id, step);
    if n.log != s.log { Appended(s, id, n); }
  }

  lemma StartKeepsPhase(s: State, id: nat, step: Step)
    requires Inv(s, id) && !s.Alive() && (step.StartCanaryWorker? || step.StartBulkWorker? || step.Resume?)
    ensures Inv(Next(s, id, step), id)
  {
    var n := IdleNext(s, id, step);
    if n.log != s.log { Appended(s, id, n); }
  }

  lemma RequestKeepsPhase(s: State, id: nat, step: Step)
    requires Inv(s, id) && !s.Alive()
    requires step.PauseIdle? || step.PauseAgain? || step.CancelIdle? || step.ResumeRefused? || step.ResumeFails?
    ensures Inv(Next(s, id, step), id)
  {
    var n := IdleNext(s, id, step);
    if n.log != s.log { Appended(s, id, n); }
  }

  lemma OtherKeepsPhase(s: State, id: nat, step: Step)
    requires Inv(s, id) && !s.Alive()
    requires step.Startup? || step.PutInQueue? || step.TakeFromQueue? || step.OtherEvent?
    ensures Inv(Next(s, id, step), id)
  {
    var n := IdleNext(s, id, step);
    if n.log != s.log { Appended(s, id, n); }
  }

  /** Each step of a worker, a request, a startup, a scan, a queue operation or another job keeps what the log tells. */
  lemma StepKeepsPhase(s: State, id: nat, step: Step)
    requires Inv(s, id)
    ensures Inv(Next(s, id, step), id)
  {
    if s.Alive() {
      WorkerKeepsPhase(s, id, step);
    } else if step.StartCanaryWorker? || step.StartBulkWorker? || step.Resume? {
      StartKeepsPhase(s, id, step);
    } else if step.PauseIdle? || step.PauseAgain? || step.CancelIdle? || step.ResumeRefused? || step.ResumeFails? {
      RequestKeepsPhase(s, id, step);
    } else if step.Startup? || step.PutInQueue? || step.TakeFromQueue? || step.OtherEvent? {
      OtherKeepsPhase(s, id, step);
    }
  }

  lemma {:induction false} RunKeepsPhase(s: State, id: nat, steps: seq<Step>)
    requires Inv(s, id)
    ensures Inv(Run(s, id, steps), id)
  {
    if steps != [] {
      RunKeepsPhase(s, id, steps[..|steps| - 1]);
      StepKeepsPhase(Run(s, id, steps[..|steps| - 1]), id, steps[|steps| - 1]);
    }
  }

  /** In every run, once a worker has started, an unfinished job would resume in the phase of its last worker exactly if
      the newest status event names a phase or the item table happens to tell it: a bulk phase by an item outside the
      canary in the middle, a canary phase by the lack of one. */
  lemma PhaseIsRecovered(s: State, id: nat, steps: seq<Step>)
    requires Scanned(s)
    ensures
      var n := Run(s, id, steps);
      InPhase(n) ==>
        (ShouldResumeAsCanary(n, id) == WasCanary(n) <==>
         NamesPhase(LatestStatusEvent(n.log, id)) || BulkStarted(n.rows) == !WasCanary(n))
  {
    RunKeepsPhase(s, id, steps);
  }

  // ---------------------------------------------------------------- whether a resume is let through

  /** Neither the item table nor the newest status event shows that a worker has been at the job. */
  predicate NoTrace(s: State, id: nat) {
    var latest := LatestStatusEvent(s.log, id);
    && CohortIds(s.rows) == {} && !BulkStarted(s.rows)
    && (latest.Some? && latest.value.previous.Some? ==> !latest.value.previous.value.IsUnfinishedMutation())
  }

  /** Nor where the job stands tells: paused, queued while paused, or stopped with a log that tells of no canary. */
  predicate LooksUnstarted(s: State, id: nat) {
    match s.job.status
    case Paused => true
    case Queued => QueuedFrom(s.log, id) == Some(Paused)
    case _ => !ShouldResumeAsCanary(s, id)
  }

  /** A resume is let through if and only if there is a trace of a worker. */
  lemma RefusedWithoutTrace(s: State, id: nat)
    requires s.job.status.IsTransferResumable()
    ensures PhaseOf(s, id).Scan? <==> NoTrace(s, id) && LooksUnstarted(s, id)
  {
  }

  lemma ResumeStarts(s: State, id: nat, rows: map<string, Row>)
    requires !s.Alive() && s.job.status.IsTransferResumable() && LooksOver(s.rows, rows)
    ensures
      var e := Next(s, id, Resume(rows));
      if PhaseOf(s, id).Scan? then e == s
      else
        && e.Alive() && e.rows == rows && WasCanary(e) == ShouldResumeAsCanary(s, id)
        && e.job == Job(if WasCanary(e) then RunningCanary else Running, None)
  {
  }

  /** In every run, a resume of a stopped job starts a worker if and only if there is a trace of one; where the newest
      status event names a phase, it is then the worker of the phase the job was in. */
  lemma ResumeContinuesThePhase(s: State, id: nat, steps: seq<Step>, rows: map<string, Row>)
    requires Scanned(s)
    requires
      var n := Run(s, id, steps);
      !n.Alive() && n.job.status.IsTransferResumable() && LooksOver(n.rows, rows)
    ensures
      var n, e := Run(s, id, steps), Run(s, id, steps + [Resume(rows)]);
      && (e.Alive() <==> !(NoTrace(n, id) && LooksUnstarted(n, id)))
      && (!e.Alive() ==> e == n)
      && (e.Alive() ==>
            && e.rows == rows && e.job == Job(if WasCanary(e) then RunningCanary else Running, None)
            && (n.last.Some? && NamesPhase(LatestStatusEvent(n.log, id)) ==> WasCanary(e) == WasCanary(n)))
  {
    RunKeepsPhase(s, id, steps);
    RunThen(s, id, steps, Resume(rows));
    RefusedWithoutTrace(Run(s, id, steps), id);
    ResumeStarts(Run(s, id, steps), id, rows);
  }

  /** What was saved as canary stays so. */
  predicate CanariesStay(a: map<string, Row>, b: map<string, Row>) {
    a.Keys == b.Keys && forall id :: id in a && a[id].canary ==> b[id].canary
  }

  lemma WorkerKeepsCohort(s: State, id: nat, step: Step)
    requires s.Alive()
    ensures CanariesStay(s.rows, WorkerNext(s, id, step).rows)
  {
  }

  lemma StepKeepsCohort(s: State, id: nat, step: Step)
    ensures CanariesStay(s.rows, Next(s, id, step).rows)
  {
    if s.Alive() { WorkerKeepsCohort(s, id, step); }
  }

  lemma {:induction false} RunKeepsCohort(s: State, id: nat, steps: seq<Step>)
    ensures CohortIds(s.rows) <= CohortIds(Run(s, id, steps).rows)
  {
    if steps != [] {
      RunKeepsCohort(s, id, steps[..|steps| - 1]);
      StepKeepsCohort(Run(s, id, steps[..|steps| - 1]), id, steps[|steps| - 1]);
      assert CohortIds(Run(s, id, steps[..|steps| - 1]).rows) <= CohortIds(Run(s, id, steps).rows);
    }
  }

  /** Once a canary has saved one item of its batch, no resume of the stopped job is ever refused again for looking like
      a scan. */
  lemma OnceSelectedAlwaysResumable(s: State, id: nat, steps: seq<Step>, more: seq<Step>)
    requires Scanned(s) && CohortIds(Run(s, id, steps).rows) != {}
    ensures
      var n := Run(s, id, steps + more);
      !n.Alive() && n.job.status.IsTransferResumable() ==> Run(s, id, steps + more + [Resume(n.rows)]).Alive()
  {
    RunOn(s, id, steps, more);
    RunKeepsCohort(Run(s, id, steps), id, more);
    var n := Run(s, id, steps + more);
    if !n.Alive() && n.job.status.IsTransferResumable() {
      ResumeContinuesThePhase(s, id, steps + more, n.rows);
      assert exists x :: x in CohortIds(Run(s, id, steps).rows);
    }
  }

  predicate InTroubleWith(status: JobStatus) {
    status.SourceRateLimited? || status.WaitingForQuota? || status.AuthRequired?
  }

  /** The newest status event is that of a worker leaving the job. */
  predicate WasLeft(s: State, id: nat) {
    var latest := LatestStatusEvent(s.log, id);
    && latest.Some? && (latest.value.previous == Some(RunningCanary) || latest.value.previous == Some(Running))
    && InTroubleWith(latest.value.next)
  }

  lemma TroubleIsQueued(s: State, id: nat, position: int)
    requires !s.Alive() && InTroubleWith(s.job.status)
    ensures
      var q := Next(s, id, PutInQueue(position));
      && q.job == Job(Queued, Some(position)) && q.rows == s.rows && q.last == s.last && !q.Alive()
      && QueuedFrom(q.log, id) == Some(s.job.status) && LatestStatusEvent(q.log, id) == LatestStatusEvent(s.log, id)
  {
    var q := Next(s, id, PutInQueue(position));
    Appended(s, id, q);
    QueueEventTellsOrigin(s.log, q.log[|s.log|], id);
    assert q.log == s.log + [q.log[|s.log|]];
  }

  lemma TroubleComesBackPaused(q: State, id: nat, origin: JobStatus)
    requires !q.Alive() && q.job.status.Queued? && QueuedFrom(q.log, id) == Some(origin) && InTroubleWith(origin)
    requires WasLeft(q, id)
    ensures
      var n := Next(q, id, TakeFromQueue);
      && n.job == Job(Paused, None) && n.rows == q.rows && n.last == q.last && !n.Alive()
      && LatestStatusEvent(n.log, id) == LatestStatusEvent(q.log, id)
  {
    StoppedGoesBackPaused(q.log, id, origin, SignsOf(q.rows));
    Appended(q, id, Next(q, id, TakeFromQueue));
  }

  /** A job that its worker left in trouble, queued and taken out again, is paused, and a resume goes on with it in the
      phase it was in. */
  lemma TroubleQueuedGoesOn(s: State, id: nat, position: int)
    requires Inv(s, id) && !s.Alive() && s.last.Some? && InTroubleWith(s.job.status) && WasLeft(s, id)
    ensures
      var n := Next(Next(s, id, PutInQueue(position)), id, TakeFromQueue);
      && n.job == Job(Paused, None) && n.rows == s.rows
      && var e := Next(n, id, Resume(n.rows));
         e.Alive() && WasCanary(e) == WasCanary(s)
  {
    var q := Next(s, id, PutInQueue(position));
    TroubleIsQueued(s, id, position);
    TroubleComesBackPaused(q, id, s.job.status);
    ResumeStarts(Next(q, id, TakeFromQueue), id, s.rows);
  }

  // ---------------------------------------------------------------- a phase once forgotten

  /** Steps that write no status event of this job and start no worker. */
  predicate IsQuiet(step: Step) {
    || step.ResumeFails? || step.RetryFailed? || step.PutInQueue? || step.TakeFromQueue? || step.Startup?
    || step.StartScan? || step.EndScan? || step.OtherEvent?
  }

  lemma QuietStepTellsNothing(s: State, id: nat, step: Step)
    requires !s.Alive() && IsQuiet(step)
    ensures
      var n := Next(s, id, step);
      !n.Alive() && n.last == s.last && LatestStatusEvent(n.log, id) == LatestStatusEvent(s.log, id)
  {
    var n := IdleNext(s, id, step);
    if n.log != s.log { Appended(s, id, n); }
  }

  lemma {:induction false} QuietStepsTellNothing(s: State, id: nat, steps: seq<Step>)
    requires !s.Alive() && forall step :: step in steps ==> IsQuiet(step)
    ensures
      var n := Run(s, id, steps);
      !n.Alive() && n.last == s.last && LatestStatusEvent(n.log, id) == LatestStatusEvent(s.log, id)
  {
    if steps != [] {
      QuietStepsTellNothing(s, id, steps[..|steps| - 1]);
      assert steps[|steps| - 1] in steps;
      QuietStepTellsNothing(Run(s, id, steps[..|steps| - 1]), id, steps[|steps| - 1]);
    }
  }

  lemma PausedAgain(s: State, id: nat)
    requires !s.Alive() && s.job.status.Paused?
    ensures
      var n := Next(s, id, PauseAgain);
      && n.job == s.job && n.rows == s.rows && n.last == s.last && !n.Alive()
      && LatestStatusEvent(n.log, id) == Some(Event(id, StatusEvent, Some(Paused), Paused))
  {
    Appended(s, id, Next(s, id, PauseAgain));
  }

  /** A pause request for a paused job writes an event that names no phase. From then on, over all that writes no other
      status event, the phase is recovered exactly as the item table stands: a bulk phase if and only if an item outside
      the canary is in the middle, a canary phase if and only if none is. */
  lemma RepausingForgetsThePhase(s: State, id: nat, quiet: seq<Step>)
    requires !s.Alive() && s.last.Some? && s.job.status.Paused?
    requires forall step :: step in quiet ==> IsQuiet(step)
    ensures
      var n := Run(Next(s, id, PauseAgain), id, quiet);
      && n.last == s.last
      && (ShouldResumeAsCanary(n, id) == WasCanary(s) <==> BulkStarted(n.rows) == !WasCanary(s))
  {
    PausedAgain(s, id);
    QuietStepsTellNothing(Next(s, id, PauseAgain), id, quiet);
  }

  /** A paused job, paused again and resumed, starts a worker if and only if the item table shows a canary or a bulk
      run, and it is the worker of the phase the table tells. */
  lemma PausedTwiceThenResumed(s: State, id: nat, steps: seq<Step>, rows: map<string, Row>)
    requires Scanned(s)
    requires
      var n := Run(s, id, steps);
      n.job.status.Paused? && !n.Alive() && LooksOver(n.rows, rows)
    ensures
      var n := Run(s, id, steps);
      var e := Run(s, id, steps + [PauseAgain] + [Resume(rows)]);
      && (e.Alive() <==> CohortIds(n.rows) != {} || BulkStarted(n.rows))
      && (e.Alive() ==> e.last == Some(if BulkStarted(n.rows) then BulkWorker else CanaryWorker(false)))
  {
    var n := Run(s, id, steps);
    RunThen(s, id, steps, PauseAgain);
    PausedAgain(n, id);
    RunThen(s, id, steps + [PauseAgain], Resume(rows));
  }
}
