/** Who may work when: the update gate, the one transfer slot in memory, the one lease on disk, the scan slots.
    Every step is what one task does between two awaits; a run is any sequence of steps of any tasks. */
module Leases {
  import opened Items

  /** How far a task that holds the transfer slot has come. */
  datatype Stage = SlotTaken | Leased | Working | Released

  datatype Holder = Holder(job: nat, stage: Stage)

  /** The lease row on disk, and whether this instance owns it. */
  datatype Lease = Lease(job: nat, mine: bool)

  datatype State = State(
    readers: nat,               // shared holds on the update gate
    installing: bool,           // the exclusive hold
    requests: set<nat>,         // tasks inside a request
    slot: Option<nat>,          // the transfer lease in memory
    durable: Option<Lease>,     // the transfer lease on disk
    stuck: bool,                // a call about the lease on disk failed, and may have left it there
    transfers: map<nat, Holder>,
    scanSlots: set<nat>,
    scans: map<nat, nat>,
    pausing: map<nat, nat>      // pause or cancel requests that found no transfer in flight, and their job
  )

  /** Asking the disk for the lease may fail before it takes effect, or after. */
  datatype Answer = Done | Failed | DoneButFailed

  datatype Step =
    | BeginRequest(task: nat)
    | EndRequest(task: nat)
    | TakeSlot(task: nat, job: nat)
    | AcquireDurable(task: nat, answer: Answer)
    | StartWorker(task: nat)
    | ReleaseDurable(task: nat, fault: bool)
    | DropGuard(task: nat)
    | TakeScan(task: nat, job: nat)
    | DropScan(task: nat)
    | BeginInstallation
    | EndInstallation
    | CheckPause(task: nat, job: nat)
    | ReleasePaused(task: nat)
    | OtherInstanceTakes(job: nat)
    | OtherInstanceReleases
    | Restart                     // the process ends anywhere; the next one clears the leases on disk first

  const IDLE := State(0, false, {}, None, None, false, map[], {}, map[], map[])

  /** Dropping the guard empties the slot only if it still names the guard's job. */
  function WithoutSlot(slot: Option<nat>, job: nat): Option<nat> {
    if slot == Some(job) then None else slot
  }

  /** Releasing deletes this instance's lease on that job, if there is one. */
  function WithoutLease(durable: Option<Lease>, job: nat): Option<Lease> {
    if durable == Some(Lease(job, true)) then None else durable
  }

  /** What a step does; one that is refused, or not that task's next step, leaves everything as it was. */
  function Next(s: State, step: Step): State {
    match step
    case BeginRequest(t) =>
      if s.installing || t in s.requests then s else s.(readers := s.readers + 1, requests := s.requests + {t})
    case EndRequest(t) =>
      if t !in s.requests || s.readers == 0 then s else s.(readers := s.readers - 1, requests := s.requests - {t})
    case TakeSlot(t, job) =>
      if s.installing || s.slot.Some? || t in s.transfers then s
      else s.(readers := s.readers + 1, slot := Some(job), transfers := s.transfers[t := Holder(job, SlotTaken)])
    case AcquireDurable(t, answer) =>
      if t !in s.transfers || !s.transfers[t].stage.SlotTaken? then s
      else if s.durable.Some? || answer.Failed? then
        s.(transfers := s.transfers[t := s.transfers[t].(stage := Released)])
      else
        s.(durable := Some(Lease(s.transfers[t].job, true)), stuck := answer.DoneButFailed?,
           transfers := s.transfers[t := s.transfers[t].(stage := if answer.Done? then Leased else Released)])
    case StartWorker(t) =>
      if t !in s.transfers || !s.transfers[t].stage.Leased? then s
      else s.(transfers := s.transfers[t := s.transfers[t].(stage := Working)])
    case ReleaseDurable(t, fault) =>
      if t !in s.transfers || !(s.transfers[t].stage.Leased? || s.transfers[t].stage.Working?) then s
      else
        s.(durable := if fault then s.durable else WithoutLease(s.durable, s.transfers[t].job),
           stuck := s.stuck || fault,
           transfers := s.transfers[t := s.transfers[t].(stage := Released)])
    case DropGuard(t) =>
      if t !in s.transfers || !s.transfers[t].stage.Released? || s.readers == 0 then s
      else
        s.(readers := s.readers - 1, slot := WithoutSlot(s.slot, s.transfers[t].job), transfers := s.transfers - {t})
    case TakeScan(t, job) =>
      if s.installing || job in s.scanSlots || t in s.scans then s
      else s.(readers := s.readers + 1, scanSlots := s.scanSlots + {job}, scans := s.scans[t := job])
    case DropScan(t) =>
      if t !in s.scans || s.readers == 0 then s
      else s.(readers := s.readers - 1, scanSlots := s.scanSlots - {s.scans[t]}, scans := s.scans - {t})
    case BeginInstallation =>
      if s.readers > 0 || s.installing then s else s.(installing := true)
    case EndInstallation => s.(installing := false)
    case CheckPause(t, job) =>
      if s.slot == Some(job) || t in s.pausing then s else s.(pausing := s.pausing[t := job])
    case ReleasePaused(t) =>
      if t !in s.pausing then s
      else
        s.(durable := WithoutLease(s.durable, s.pausing[t]), slot := WithoutSlot(s.slot, s.pausing[t]),
           pausing := s.pausing - {t})
    case OtherInstanceTakes(job) =>
      if s.durable.Some? then s else s.(durable := Some(Lease(job, false)), stuck := false)
    case OtherInstanceReleases =>
      if s.durable.Some? && !s.durable.value.mine then s.(durable := None) else s
    case Restart => IDLE
  }

  // ---------------------------------------------------------------- safety

  /** At most one task holds the transfer slot, and the slot names its job. */
  predicate OneTransfer(transfers: map<nat, Holder>, slot: Option<nat>) {
    && (forall a, b :: a in transfers && b in transfers ==> a == b)
    && (forall t :: t in transfers ==> slot == Some(transfers[t].job))
    && (slot.Some? ==> transfers != map[])
  }

  predicate HoldsLease(holder: Holder) {
    holder.stage.Leased? || holder.stage.Working?
  }

  /** The lease of this instance on disk is the lease of the task in the slot, unless a call about it has failed. */
  predicate LeaseFollowsSlot(transfers: map<nat, Holder>, durable: Option<Lease>, stuck: bool) {
    && (forall t :: t in transfers && HoldsLease(transfers[t]) ==> durable == Some(Lease(transfers[t].job, true)))
    && (durable.Some? && durable.value.mine && !stuck ==>
          exists t :: t in transfers && transfers[t].job == durable.value.job && HoldsLease(transfers[t]))
  }

  /** Each job is scanned by at most one task, which its scan slot stands for. */
  predicate OneScanEach(scans: map<nat, nat>, scanSlots: set<nat>) {
    && (forall a, b :: a in scans && b in scans && scans[a] == scans[b] ==> a == b)
    && (forall t :: t in scans ==> scans[t] in scanSlots)
    && (forall job :: job in scanSlots ==> exists t :: t in scans && scans[t] == job)
  }

  /** The gate counts every task at work, and none is while an installation holds it. */
  predicate GateCounts(s: State) {
    && s.readers == |s.requests| + |s.transfers| + |s.scans|
    && (s.installing ==> s.readers == 0)
  }

  predicate Safe(s: State) {
    && OneTransfer(s.transfers, s.slot) && LeaseFollowsSlot(s.transfers, s.durable, s.stuck)
    && OneScanEach(s.scans, s.scanSlots) && GateCounts(s)
  }

  /** A pause or cancel that found nothing in flight releases only if that is still so. */
  predicate Quiet(s: State, step: Step) {
    step.ReleasePaused? && step.task in s.pausing ==> s.slot != Some(s.pausing[step.task])
  }

  lemma DroppedCardinality<T>(m: map<nat, T>, t: nat)
    requires t in m
    ensures |m - {t}| == |m| - 1
  {
    assert (m - {t}).Keys == m.Keys - {t};
    assert |m.Keys| == |m| && |(m - {t}).Keys| == |m - {t}|;
  }

  lemma AddedCardinality<T>(m: map<nat, T>, t: nat, v: T)
    ensures |m[t := v]| == if t in m then |m| else |m| + 1
  {
    assert m[t := v].Keys == m.Keys + {t};
    assert |m.Keys| == |m| && |m[t := v].Keys| == |m[t := v]|;
  }

  /** Moving a holder to another stage neither adds nor removes one. */
  lemma StageKeepsOneTransfer(transfers: map<nat, Holder>, slot: Option<nat>, t: nat, stage: Stage)
    requires OneTransfer(transfers, slot) && t in transfers
    ensures OneTransfer(transfers[t := transfers[t].(stage := stage)], slot)
  {
    assert t in transfers[t := transfers[t].(stage := stage)];
  }

  lemma LastGuardEmptiesSlot(transfers: map<nat, Holder>, slot: Option<nat>, t: nat)
    requires OneTransfer(transfers, slot) && t in transfers
    ensures OneTransfer(transfers - {t}, WithoutSlot(slot, transfers[t].job))
  {
    assert transfers - {t} == map[];
  }

  /** Steps about neither lease. */
  predicate IsElsewhere(step: Step) {
    || step.BeginRequest? || step.EndRequest? || step.TakeScan? || step.DropScan? || step.BeginInstallation?
    || step.EndInstallation? || step.CheckPause?
  }

  lemma ElsewhereLeavesLeases(s: State, step: Step)
    requires IsElsewhere(step)
    ensures
      var n := Next(s, step);
      n.transfers == s.transfers && n.slot == s.slot && n.durable == s.durable && n.stuck == s.stuck
  {
  }

  lemma TakingKeepsOneTransfer(s: State, t: nat, job: nat)
    requires OneTransfer(s.transfers, s.slot)
    ensures OneTransfer(Next(s, TakeSlot(t, job)).transfers, Next(s, TakeSlot(t, job)).slot)
  {
    assert s.slot.None? ==> s.transfers.Keys == {};
  }

  lemma AcquiringKeepsOneTransfer(s: State, t: nat, answer: Answer)
    requires OneTransfer(s.transfers, s.slot)
    ensures OneTransfer(Next(s, AcquireDurable(t, answer)).transfers, Next(s, AcquireDurable(t, answer)).slot)
  {
    if t in s.transfers {
      StageKeepsOneTransfer(s.transfers, s.slot, t, Released);
      StageKeepsOneTransfer(s.transfers, s.slot, t, Leased);
    }
  }

  lemma ReleasingKeepsOneTransfer(s: State, t: nat, fault: bool)
    requires OneTransfer(s.transfers, s.slot)
    ensures OneTransfer(Next(s, ReleaseDurable(t, fault)).transfers, Next(s, ReleaseDurable(t, fault)).slot)
  {
    if t in s.transfers { StageKeepsOneTransfer(s.transfers, s.slot, t, Released); }
  }

  lemma StepKeepsTransfers(s: State, step: Step)
    requires OneTransfer(s.transfers, s.slot) && Quiet(s, step)
    ensures OneTransfer(Next(s, step).transfers, Next(s, step).slot)
  {
    match step
    case TakeSlot(t, job) => TakingKeepsOneTransfer(s, t, job);
    case AcquireDurable(t, answer) => AcquiringKeepsOneTransfer(s, t, answer);
    case StartWorker(t) => if t in s.transfers { StageKeepsOneTransfer(s.transfers, s.slot, t, Working); }
    case ReleaseDurable(t, fault) => ReleasingKeepsOneTransfer(s, t, fault);
    case DropGuard(t) => if t in s.transfers { LastGuardEmptiesSlot(s.transfers, s.slot, t); }
    case ReleasePaused(_) =>
    case OtherInstanceTakes(_) =>
    case OtherInstanceReleases =>
    case Restart =>
    case _ => ElsewhereLeavesLeases(s, step);
  }

  lemma AcquiringKeepsLease(s: State, t: nat, answer: Answer)
    requires OneTransfer(s.transfers, s.slot) && LeaseFollowsSlot(s.transfers, s.durable, s.stuck)
    ensures
      var n := Next(s, AcquireDurable(t, answer));
      LeaseFollowsSlot(n.transfers, n.durable, n.stuck)
  {
    var n := Next(s, AcquireDurable(t, answer));
    if t in s.transfers && s.transfers[t].stage.SlotTaken? { assert t in n.transfers; }
  }

  lemma HoldingKeepsLease(s: State, t: nat, fault: bool)
    requires OneTransfer(s.transfers, s.slot) && LeaseFollowsSlot(s.transfers, s.durable, s.stuck)
    ensures
      var n := Next(s, StartWorker(t));
      LeaseFollowsSlot(n.transfers, n.durable, n.stuck)
    ensures
      var n := Next(s, ReleaseDurable(t, fault));
      LeaseFollowsSlot(n.transfers, n.durable, n.stuck)
  {
    if t in s.transfers {
      assert t in Next(s, StartWorker(t)).transfers;
    }
  }

  lemma LeavingKeepsLease(s: State, t: nat)
    requires OneTransfer(s.transfers, s.slot) && LeaseFollowsSlot(s.transfers, s.durable, s.stuck)
    ensures
      var n := Next(s, DropGuard(t));
      LeaseFollowsSlot(n.transfers, n.durable, n.stuck)
    ensures
      t in s.pausing && s.slot != Some(s.pausing[t]) ==>
        var n := Next(s, ReleasePaused(t));
        LeaseFollowsSlot(n.transfers, n.durable, n.stuck)
  {
  }

  lemma TakingKeepsLease(s: State, t: nat, job: nat)
    requires OneTransfer(s.transfers, s.slot) && LeaseFollowsSlot(s.transfers, s.durable, s.stuck)
    ensures
      var n := Next(s, TakeSlot(t, job));
      LeaseFollowsSlot(n.transfers, n.durable, n.stuck)
  {
    assert s.slot.None? ==> s.transfers.Keys == {};
  }

  lemma OtherInstanceKeepsLease(s: State, job: nat)
    requires LeaseFollowsSlot(s.transfers, s.durable, s.stuck)
    ensures
      var n := Next(s, OtherInstanceTakes(job));
      LeaseFollowsSlot(n.transfers, n.durable, n.stuck)
    ensures
      var n := Next(s, OtherInstanceReleases);
      LeaseFollowsSlot(n.transfers, n.durable, n.stuck)
  {
  }

  lemma StepKeepsLease(s: State, step: Step)
    requires OneTransfer(s.transfers, s.slot) && LeaseFollowsSlot(s.transfers, s.durable, s.stuck) && Quiet(s, step)
    ensures LeaseFollowsSlot(Next(s, step).transfers, Next(s, step).durable, Next(s, step).stuck)
  {
    match step
    case TakeSlot(t, job) => TakingKeepsLease(s, t, job);
    case AcquireDurable(t, answer) => AcquiringKeepsLease(s, t, answer);
    case StartWorker(t) => HoldingKeepsLease(s, t, false);
    case ReleaseDurable(t, fault) => HoldingKeepsLease(s, t, fault);
    case DropGuard(t) => LeavingKeepsLease(s, t);
    case ReleasePaused(t) => LeavingKeepsLease(s, t);
    case OtherInstanceTakes(job) => OtherInstanceKeepsLease(s, job);
    case OtherInstanceReleases => OtherInstanceKeepsLease(s, 0);
    case Restart =>
    case _ => ElsewhereLeavesLeases(s, step);
  }

  lemma TakenScan(scans: map<nat, nat>, scanSlots: set<nat>, t: nat, job: nat)
    requires OneScanEach(scans, scanSlots) && t !in scans && job !in scanSlots
    ensures OneScanEach(scans[t := job], scanSlots + {job})
  {
    var n := scans[t := job];
    forall j | j in scanSlots + {job} ensures exists u :: u in n && n[u] == j {
      if j == job {
        assert n[t] == j;
      } else {
        var u :| u in scans && scans[u] == j;
        assert n[u] == j;
      }
    }
  }

  lemma DroppedScan(scans: map<nat, nat>, scanSlots: set<nat>, t: nat)
    requires OneScanEach(scans, scanSlots) && t in scans
    ensures OneScanEach(scans - {t}, scanSlots - {scans[t]})
  {
    var n := scans - {t};
    forall j | j in scanSlots - {scans[t]} ensures exists u :: u in n && n[u] == j {
      var u :| u in scans && scans[u] == j;
      assert n[u] == j;
    }
  }

  /** Steps about no scan. */
  lemma ScansStand(s: State, step: Step)
    requires !step.TakeScan? && !step.DropScan? && !step.Restart?
    ensures Next(s, step).scans == s.scans && Next(s, step).scanSlots == s.scanSlots
  {
  }

  lemma StepKeepsScans(s: State, step: Step)
    requires OneScanEach(s.scans, s.scanSlots)
    ensures OneScanEach(Next(s, step).scans, Next(s, step).scanSlots)
  {
    match step
    case TakeScan(t, job) => if t !in s.scans && job !in s.scanSlots { TakenScan(s.scans, s.scanSlots, t, job); }
    case DropScan(t) => if t in s.scans { DroppedScan(s.scans, s.scanSlots, t); }
    case Restart =>
    case _ => ScansStand(s, step);
  }

  lemma StageKeepsCount(transfers: map<nat, Holder>, t: nat, stage: Stage)
    requires t in transfers
    ensures |transfers[t := transfers[t].(stage := stage)]| == |transfers|
  {
    AddedCardinality(transfers, t, transfers[t].(stage := stage));
  }

  lemma AcquiringKeepsGate(s: State, t: nat, answer: Answer)
    requires GateCounts(s)
    ensures GateCounts(Next(s, AcquireDurable(t, answer)))
  {
    if t in s.transfers {
      StageKeepsCount(s.transfers, t, Released);
      StageKeepsCount(s.transfers, t, Leased);
    }
  }

  lemma HolderStepKeepsGate(s: State, t: nat, fault: bool)
    requires GateCounts(s)
    ensures GateCounts(Next(s, StartWorker(t))) && GateCounts(Next(s, ReleaseDurable(t, fault)))
  {
    if t in s.transfers {
      StageKeepsCount(s.transfers, t, Released);
      StageKeepsCount(s.transfers, t, Working);
    }
  }

  lemma RequestKeepsGate(s: State, t: nat)
    requires GateCounts(s)
    ensures GateCounts(Next(s, BeginRequest(t))) && GateCounts(Next(s, EndRequest(t)))
  {
  }

  lemma TransferKeepsGate(s: State, t: nat, job: nat)
    requires GateCounts(s)
    ensures GateCounts(Next(s, TakeSlot(t, job))) && GateCounts(Next(s, DropGuard(t)))
  {
    AddedCardinality(s.transfers, t, Holder(job, SlotTaken));
    if t in s.transfers { DroppedCardinality(s.transfers, t); }
  }

  lemma ScanKeepsGate(s: State, t: nat, job: nat)
    requires GateCounts(s)
    ensures GateCounts(Next(s, TakeScan(t, job))) && GateCounts(Next(s, DropScan(t)))
  {
    AddedCardinality(s.scans, t, job);
    if t in s.scans { DroppedCardinality(s.scans, t); }
  }

  lemma StepKeepsGate(s: State, step: Step)
    requires GateCounts(s)
    ensures GateCounts(Next(s, step))
  {
    match step
    case BeginRequest(t) => RequestKeepsGate(s, t);
    case EndRequest(t) => RequestKeepsGate(s, t);
    case TakeSlot(t, job) => TransferKeepsGate(s, t, job);
    case DropGuard(t) => TransferKeepsGate(s, t, 0);
    case TakeScan(t, job) => ScanKeepsGate(s, t, job);
    case DropScan(t) => ScanKeepsGate(s, t, 0);
    case AcquireDurable(t, answer) => AcquiringKeepsGate(s, t, answer);
    case StartWorker(t) => HolderStepKeepsGate(s, t, false);
    case ReleaseDurable(t, fault) => HolderStepKeepsGate(s, t, fault);
    case _ =>
  }

  lemma StepIsSafe(s: State, step: Step)
    requires Safe(s) && Quiet(s, step)
    ensures Safe(Next(s, step))
  {
    StepKeepsTransfers(s, step);
    StepKeepsLease(s, step);
    StepKeepsScans(s, step);
    StepKeepsGate(s, step);
  }

  function Run(s: State, steps: seq<Step>): State {
    if steps == [] then s else Next(Run(s, steps[..|steps| - 1]), steps[|steps| - 1])
  }

  predicate AlwaysQuiet(s: State, steps: seq<Step>) {
    steps == []
    || (AlwaysQuiet(s, steps[..|steps| - 1]) && Quiet(Run(s, steps[..|steps| - 1]), steps[|steps| - 1]))
  }

  /** Exactly the late release breaks the slot: from a safe state it keeps safety if and only if it is quiet. */
  lemma LateReleaseIsUnsafe(s: State, task: nat)
    requires Safe(s) && task in s.pausing
    ensures Safe(Next(s, ReleasePaused(task))) <==> Quiet(s, ReleasePaused(task))
  {
    if Quiet(s, ReleasePaused(task)) {
      StepIsSafe(s, ReleasePaused(task));
    } else {
      assert s.transfers.Keys == {} ==> s.transfers == map[];
      var t :| t in s.transfers.Keys;
      assert t in Next(s, ReleasePaused(task)).transfers;
    }
  }

  /** Safe at every moment of a run. */
  predicate SafeThroughout(s: State, steps: seq<Step>) {
    Safe(Run(s, steps)) && (steps == [] || SafeThroughout(s, steps[..|steps| - 1]))
  }

  /** Any interleaving of starts, resumes, scans, pauses, installations, restarts and failures, from an idle start, is
      safe throughout exactly if no pause releases the leases of a worker that started after it looked. */
  lemma {:induction false} EveryRunIsSafe(steps: seq<Step>)
    ensures SafeThroughout(IDLE, steps) <==> AlwaysQuiet(IDLE, steps)
  {
    if steps != [] {
      var before, step := Run(IDLE, steps[..|steps| - 1]), steps[|steps| - 1];
      EveryRunIsSafe(steps[..|steps| - 1]);
      if Safe(before) {
        if Quiet(before, step) { StepIsSafe(before, step); } else { LateReleaseIsUnsafe(before, step.task); }
      }
    }
  }

  /** A look followed by a release is quiet, whatever lies between, unless a worker starts in between. */
  lemma {:induction false} OnlyAStartBetweenHurts(s: State, task: nat, job: nat, steps: seq<Step>)
    requires task !in s.pausing && forall step :: step in steps ==> !step.TakeSlot?
    ensures Quiet(Run(Next(s, CheckPause(task, job)), steps), ReleasePaused(task))
  {
    if steps != [] {
      var before := steps[..|steps| - 1];
      OnlyAStartBetweenHurts(s, task, job, before);
      assert !steps[|steps| - 1].TakeSlot?;
      QuietStays(Run(Next(s, CheckPause(task, job)), before), task, steps[|steps| - 1]);
    }
  }

  lemma QuietStays(s: State, task: nat, step: Step)
    requires Quiet(s, ReleasePaused(task)) && !step.TakeSlot?
    ensures Quiet(Next(s, step), ReleasePaused(task))
  {
  }

  /** A request is let in exactly when no installation holds the gate, and leaves everything as it was. */
  lemma RequestsComeAndGo(s: State, task: nat)
    requires Safe(s) && task !in s.requests
    ensures
      var n := Next(s, BeginRequest(task));
      if s.installing then n == s else task in n.requests && Next(n, EndRequest(task)) == s
  {
    assert s.requests + {task} - {task} == s.requests;
  }

  /** So do a scan and an installation. */
  lemma ScansComeAndGo(s: State, task: nat, job: nat)
    requires !s.installing && task !in s.scans && job !in s.scanSlots
    ensures Next(Next(s, TakeScan(task, job)), DropScan(task)) == s
  {
    var n := Next(s, TakeScan(task, job));
    assert n == s.(readers := s.readers + 1, scanSlots := s.scanSlots + {job}, scans := s.scans[task := job]);
    assert s.scanSlots + {job} - {job} == s.scanSlots;
    assert s.scans[task := job] - {task} == s.scans;
  }

  lemma InstallationsComeAndGo(s: State)
    requires !s.installing
    ensures Next(Next(s, BeginInstallation), EndInstallation) == s
  {
  }

  /** A transfer worker gives back what it took. */
  lemma TransfersComeAndGo(s: State, task: nat, job: nat)
    requires !s.installing && s.slot.None? && s.durable.None? && task !in s.transfers
    ensures
      var worked := Started(s, task, job);
      Next(Next(worked, ReleaseDurable(task, false)), DropGuard(task)) == s.(stuck := false)
  {
    StartTakes(s, task, job);
    ReleaseGivesBack(s, task, job);
    GuardGivesBack(s, task, job);
  }

  /** The state with a transfer task at this stage and nothing else changed. */
  function WithTask(s: State, task: nat, job: nat, stage: Stage, durable: Option<Lease>): State {
    s.(readers := s.readers + 1, slot := Some(job), durable := durable, stuck := false,
       transfers := s.transfers[task := Holder(job, stage)])
  }

  lemma StartTakes(s: State, task: nat, job: nat)
    requires !s.installing && s.slot.None? && s.durable.None? && task !in s.transfers
    ensures Started(s, task, job) == WithTask(s, task, job, Working, Some(Lease(job, true)))
  {
    var a := Next(s, TakeSlot(task, job));
    assert a.transfers[task] == Holder(job, SlotTaken);
    var b := Next(a, AcquireDurable(task, Done));
    assert b == WithTask(s, task, job, Leased, Some(Lease(job, true)));
  }

  lemma ReleaseGivesBack(s: State, task: nat, job: nat)
    ensures Next(WithTask(s, task, job, Working, Some(Lease(job, true))), ReleaseDurable(task, false)) ==
            WithTask(s, task, job, Released, None)
  {
    assert s.transfers[task := Holder(job, Working)][task := Holder(job, Released)]
        == s.transfers[task := Holder(job, Released)];
  }

  lemma GuardGivesBack(s: State, task: nat, job: nat)
    requires s.slot.None? && s.durable.None? && task !in s.transfers
    ensures Next(WithTask(s, task, job, Released, None), DropGuard(task)) == s.(stuck := false)
  {
    assert s.transfers[task := Holder(job, Released)] - {task} == s.transfers;
  }

  predicate WorksFor(s: State, task: nat, job: nat) {
    task in s.transfers && s.transfers[task] == Holder(job, Working)
  }

  /** The three steps that start a worker. */
  function Started(s: State, task: nat, job: nat): State {
    Next(Next(Next(s, TakeSlot(task, job)), AcquireDurable(task, Done)), StartWorker(task))
  }

  lemma StartWorks(s: State, task: nat, job: nat)
    requires !s.installing && s.slot.None? && s.durable.None? && task !in s.transfers
    ensures
      var n := Started(s, task, job);
      && WorksFor(n, task, job) && (forall t, j :: WorksFor(s, t, j) ==> WorksFor(n, t, j))
      && n.slot == Some(job) && n.durable == Some(Lease(job, true)) && n.pausing == s.pausing
      && n.installing == s.installing
      && forall t :: t in n.transfers ==> t == task || t in s.transfers
  {
    var a := Next(s, TakeSlot(task, job));
    var b := Next(a, AcquireDurable(task, Done));
    assert a.transfers[task] == Holder(job, SlotTaken);
    assert b.transfers[task] == Holder(job, Leased);
  }

  /** The late release at work: a pause looks, a worker starts for the same job, the pause releases that worker's
      leases, and a worker of any other job starts beside it. */
  lemma LateReleaseAdmitsTwoWorkers(job: nat, other: nat)
    ensures
      var looked := Next(IDLE, CheckPause(0, job));
      var released := Next(Started(looked, 1, job), ReleasePaused(0));
      var both := Started(released, 2, other);
      WorksFor(both, 1, job) && WorksFor(both, 2, other)
  {
    var looked := Next(IDLE, CheckPause(0, job));
    StartWorks(looked, 1, job);
    var working := Started(looked, 1, job);
    var released := Next(working, ReleasePaused(0));
    assert released.transfers == working.transfers;
    StartWorks(released, 2, other);
  }

  /** A transfer worker can start exactly when both leases are free. */
  lemma StartsIffLeasesAreFree(s: State, task: nat, job: nat)
    requires Safe(s) && !s.installing && task !in s.transfers
    ensures WorksFor(Started(s, task, job), task, job) <==> s.slot.None? && s.durable.None?
  {
    if s.slot.None? && s.durable.None? {
      StartWorks(s, task, job);
    } else if s.slot.None? {
      var a := Next(s, TakeSlot(task, job));
      assert a.transfers[task].stage.SlotTaken?;
      var b := Next(a, AcquireDurable(task, Done));
      assert b.transfers[task].stage.Released?;
    }
  }

  /** After a restart a worker can start for any job, whatever was at work before. */
  lemma RestartFreesAll(s: State, task: nat, job: nat)
    ensures WorksFor(Started(Next(s, Restart), task, job), task, job)
  {
    StartWorks(Next(s, Restart), task, job);
  }

  /** A scan can start exactly when its job is not being scanned; an installation, exactly when nothing is at work. */
  lemma AdmissionIsExact(s: State, task: nat, job: nat)
    requires Safe(s) && !s.installing && task !in s.scans
    ensures
      var n := Next(s, TakeScan(task, job));
      (task in n.scans && n.scans[task] == job) <==> forall t :: t in s.scans ==> s.scans[t] != job
    ensures
      Next(s, BeginInstallation).installing <==> s.requests == {} && s.transfers == map[] && s.scans == map[]
  {
    assert |s.transfers| == 0 <==> s.transfers == map[];
    assert |s.scans| == 0 <==> s.scans == map[];
    if job in s.scanSlots {
      var t :| t in s.scans && s.scans[t] == job;
    }
  }

  /** While an installation holds the gate no task is at work, and none can begin before it ends. */
  lemma InstallationIsAlone(s: State, step: Step)
    requires Safe(s) && s.installing
    ensures s.requests == {} && s.transfers == map[] && s.scans == map[]
    ensures !step.EndInstallation? && !step.Restart? ==>
              var n := Next(s, step);
              n.installing && n.requests == {} && n.transfers == map[] && n.scans == map[]
  {
    StepKeepsGate(s, step);
  }

  /** When the last transfer task is gone, both leases are free for the next, unless a call about the lease on disk
      has failed. */
  lemma NothingLeaks(s: State)
    requires Safe(s) && s.transfers == map[]
    ensures s.slot == None
    ensures s.durable.None? || !s.durable.value.mine || s.stuck
  {
  }
}
