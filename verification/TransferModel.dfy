/** Rows, answers and calls of ownership transfer, and what one step or a whole run may do to them. */
module TransferModel {
  import opened Items
  import opened DriveModel
  import opened Backoff

  datatype Phase = Reconcile | PendingOwner | Accept | Verify

  function PhaseRole(phase: Phase): AccountRole {
    if phase.Reconcile? || phase.PendingOwner? then Source else Target
  }

  datatype Details = OfDrive(error: DriveError) | OfReason(reason: string)

  datatype Row = Row(
    fileId: string,
    parents: seq<string>,
    targetPermission: Option<string>,
    state: ItemState,
    canary: bool,
    lastError: Option<Details>
  )

  datatype Trouble = SharingRateLimited | WaitingForQuota | AuthRequired(role: AccountRole)

  datatype Halt = Exhausted(verified: nat, failed: nat) | InTrouble(trouble: Trouble) | PauseRequested | CancelRequested

  datatype StepOutcome =
    | Retryable(details: Details)
    | Permanent(details: Details)
    | Halting(trouble: Trouble, details: Details)
    | StoreFailed
    | InvalidState

  datatype StepResult = Done(state: ItemState) | Halted(trouble: Trouble) | Failed | Fatal

  /** After one item of a run: go on with the counts, or stop the run; no halt means an error. */
  datatype Stepped = GoesOn(verified: nat, failed: nat) | StopsWith(halt: Option<Halt>)

  datatype Answered = Ok(answer: Answer) | Err(outcome: StepOutcome)

  datatype PrepareAction = Finished(state: ItemState) | VerifyOnly | AcceptWith(permissionId: string)

  datatype Prepared = Go(action: PrepareAction) | Stop(outcome: StepOutcome)

  datatype Sight = Confirmed | Trashed | NotYet | Ends(failure: StepOutcome)

  /** How Drive answers: anything at all, the truth or a fault, or always the truth. */
  datatype Mode = Arbitrary | Faulty | Reliable

  /** One Drive call, with the row saved for its file at that moment and all the other rows. */
  datatype Call = Call(fileId: string, op: Op, answer: Answer, saved: Row, others: map<string, Row>)

  function Classify(e: DriveError, phase: Phase): StepOutcome {
    match e
    case SharingRateLimitExceeded => Halting(SharingRateLimited, OfDrive(e))
    case StorageQuotaExceeded => Halting(WaitingForQuota, OfDrive(e))
    case Unauthorized => Halting(AuthRequired(PhaseRole(phase)), OfDrive(e))
    case NotFound => if phase.Verify? || phase.Accept? then Retryable(OfDrive(e)) else Permanent(OfDrive(e))
    case RateLimited => Retryable(OfDrive(e))
    case ServerUnavailable => Retryable(OfDrive(e))
    case Transport => Retryable(OfDrive(e))
    case Forbidden => Permanent(OfDrive(e))
    case InvalidResponse => Permanent(OfDrive(e))
    case UnexpectedStatus => Permanent(OfDrive(e))
  }

  /** What a saved row and the real file always have to do with each other. */
  ghost predicate Linked(row: Row, s: Snapshot, who: Parties) {
    Fits(row.state, row.targetPermission, row.parents, s, who)
  }

  ghost predicate Fits(state: ItemState, permission: Option<string>, parents: seq<string>, s: Snapshot, who: Parties) {
    && !state.Discovered? && !state.PendingOwnerCreated?
    && (state.IsTransferActive() || state.Verified? ==> Sane(s, who, parents))
    && (state.AcceptRequired? ==> s.owners == [who.source])
    && (state.AcceptRequired? || state.Accepting? ==>
          permission.Some? && (s.owners == [who.source] ==> PendingAt(s, who, permission.value)))
    && (state.Transferred? || state.Verifying? || state.Verified? ==> s.owners == [who.target])
  }

  predicate SameItem(a: Row, b: Row) {
    a.fileId == b.fileId && a.parents == b.parents && a.canary == b.canary
  }

  /** Only this item's row may differ, and only in what a transfer writes. */
  predicate OnlyRow(before: map<string, Row>, after: map<string, Row>, id: string) {
    && id in before && id in after
    && after - {id} == before - {id}
    && SameItem(before[id], after[id])
  }

  /** Ownership is only ever accepted under a row saved as Accepting with that very permission. */
  predicate AcceptFollowsRow(c: Call) {
    c.op.AcceptOwnership? ==>
      c.saved.state.Accepting? && c.saved.targetPermission == Some(c.op.permissionId)
  }

  /** A call about one item of the table, every other row standing as in the table. */
  predicate CallIn(c: Call, rows: map<string, Row>, id: string) {
    c.fileId == id && id in rows && SameItem(c.saved, rows[id]) && c.others == rows - {id}
  }

  /** The calls made between two moments: at most `limit`, all about this file, with every other row standing. */
  predicate CallsOn(rows: map<string, Row>, before: seq<Call>, after: seq<Call>, id: string, limit: nat) {
    && before <= after
    && |after| <= |before| + limit
    && (forall k :: |before| <= k < |after| ==> CallIn(after[k], rows, id))
  }

  /** The calls made between two moments repeat one call under one saved table. */
  predicate Repeats(before: seq<Call>, after: seq<Call>, id: string, op: Op, rows: map<string, Row>)
    requires id in rows
  {
    && before <= after
    && forall k :: |before| <= k < |after| ==> after[k] == Call(id, op, after[k].answer, rows[id], rows - {id})
  }

  /** A read with the target's token showing the transfer complete. */
  predicate Confirms(c: Call, row: Row, who: Parties) {
    && c.fileId == row.fileId
    && c.op == GetFile(Target)
    && c.answer.File?
    && var s := c.answer.snapshot;
       && who.target in s.owners && who.source !in s.owners
       && !s.trashed
       && multiset(s.parents) == multiset(row.parents)
  }

  /** The account whose token a call uses. */
  function TokenOf(op: Op): AccountRole {
    match op
    case GetFile(role) => role
    case CreatePendingOwner => Source
    case UpdatePendingOwner(_) => Source
    case AcceptOwnership(_) => Target
  }

  /** The trouble a call shows the whole job to be in; a refused token is blamed on the account it belongs to. */
  function TroubleOf(c: Call): Option<Trouble> {
    if !c.answer.Fault? then None
    else
      match c.answer.error
      case Unauthorized => Some(AuthRequired(TokenOf(c.op)))
      case SharingRateLimitExceeded => Some(SharingRateLimited)
      case StorageQuotaExceeded => Some(WaitingForQuota)
      case _ => None
  }

  /** What a call means for its item if nothing more is to be done about it: a state to end in, trouble for the whole
      job, or that there is more to do. */
  datatype Verdict = EndsIn(state: ItemState) | Stops(trouble: Trouble) | Continues

  predicate NeitherOwns(s: Snapshot, who: Parties) {
    who.source !in s.owners && who.target !in s.owners
  }

  /** A busy or unreachable Drive may pass, and so may a file that the target does not see yet. Every other fault that
      is no trouble for the whole job is for good. */
  function VerdictOnFault(c: Call): Verdict
    requires c.answer.Fault?
  {
    if TroubleOf(c).Some? then Stops(TroubleOf(c).value)
    else if c.answer.error in {RateLimited, ServerUnavailable, Transport} then EndsIn(RetryableFailed)
    else if c.answer.error.NotFound? && TokenOf(c.op).Target? then EndsIn(RetryableFailed)
    else EndsIn(PermanentFailed)
  }

  function VerdictOn(c: Call, who: Parties): Verdict {
    match c.answer
    case Fault(_) => VerdictOnFault(c)
    case Granted(_) => Continues
    case Accepted => Continues
    case File(s) =>
      if s.trashed then EndsIn(SkippedTrashed)
      else if c.op == GetFile(Source) then
        if s.driveId.Some? then EndsIn(SkippedSharedDrive)
        else if NeitherOwns(s, who) then EndsIn(PermanentFailed)
        else Continues
      else if Confirms(c, c.saved, who) then EndsIn(Verified)
      else if NeitherOwns(s, who) then EndsIn(PermanentFailed)
      else EndsIn(RetryableFailed)
  }

  predicate WorthRepeating(c: Call) {
    c.answer.Fault? && VerdictOnFault(c) == EndsIn(RetryableFailed)
  }

  /** The calls between two moments, but for the last ones, were answered with faults worth repeating. */
  predicate RepeatedUpTo(a: seq<Call>, b: seq<Call>, made: nat) {
    a <= b && |b| >= |a| + made && forall k :: |a| <= k < |a| + made ==> WorthRepeating(b[k])
  }

  /** The last seven calls are one call repeated, always answered with a fault worth repeating. */
  predicate RepeatedInVain(calls: seq<Call>) {
    && |calls| > MAX_RETRY_ATTEMPTS
    && forall k :: |calls| - MAX_RETRY_ATTEMPTS - 1 <= k < |calls| ==>
         WorthRepeating(calls[k]) && calls[k].op == calls[|calls| - 1].op
  }

  /** The item was given its full time before it was left for later. */
  predicate Persisted(a: World, b: World) {
    && |b.calls| > |a.calls| + MAX_RETRY_ATTEMPTS && b.slept >= a.slept + SLEEP_AT_LEAST[MAX_RETRY_ATTEMPTS]
    && (b.calls[|b.calls| - 1].answer.Fault? ==> RepeatedInVain(b.calls))
  }

  /** The error noted is that of the call, if it was answered with one. */
  predicate Tells(details: Details, c: Call) {
    if c.answer.Fault? then details == OfDrive(c.answer.error) else details.OfReason?
  }

  /** The last call since `a` means this. */
  predicate Meant(a: World, b: World, who: Parties, details: Details, verdict: Verdict) {
    && |b.calls| > |a.calls|
    && VerdictOn(b.calls[|b.calls| - 1], who) == verdict && Tells(details, b.calls[|b.calls| - 1])
  }

  /** What came up in a step since `a` is what its last call showed, or a fault of the store. */
  predicate Blames(o: StepOutcome, a: World, b: World, who: Parties) {
    match o
    case Halting(trouble, details) => Meant(a, b, who, details, Stops(trouble))
    case Retryable(details) => Meant(a, b, who, details, EndsIn(RetryableFailed)) && Persisted(a, b)
    case Permanent(details) => Meant(a, b, who, details, EndsIn(PermanentFailed))
    case StoreFailed => b.faults > a.faults
    case InvalidState => true
  }

  /** Nothing was asked about the item, as the permission to accept was never recorded. */
  predicate LacksPermission(a: World, b: World, item: Row) {
    b.calls == a.calls && item.targetPermission.None?
  }

  /** How an item's step ends follows from its last call; it ends in an error only with a fault of the store or an item
      in a state no step leads on from. */
  predicate Deserved(r: StepResult, item: Row, row: Row, a: World, b: World, who: Parties) {
    match r
    case Fatal => b.faults > a.faults || item.state.PendingOwnerCreated?
    case Halted(trouble) => row.lastError.Some? && Meant(a, b, who, row.lastError.value, Stops(trouble))
    case Failed =>
      && row.lastError.Some?
      && (|| (LacksPermission(a, b, item) && row.state.PermanentFailed?)
          || (Meant(a, b, who, row.lastError.value, EndsIn(row.state))
              && (row.state.RetryableFailed? ==> Persisted(a, b))))
    case Done(state) =>
      |b.calls| > |a.calls| && VerdictOn(b.calls[|b.calls| - 1], who) == EndsIn(state)
  }

  lemma BlamesLater(o: StepOutcome, a: World, b: World, c: World, who: Parties)
    requires Blames(o, b, c, who) && |a.calls| <= |b.calls| && a.slept <= b.slept && a.faults <= b.faults
    ensures Blames(o, a, c, who)
  {
  }

  /** What a bounded retry reports, from the last answer it got and the number of calls it made. */
  predicate Reports(phase: Phase, op: Op, last: Answer, made: int, r: Answered) {
    match r
    case Ok(answer) => answer == last && !last.Fault? && AnswerFits(op, last)
    case Err(outcome) =>
      && last.Fault? && outcome == Classify(last.error, phase)
      && (outcome.Retryable? ==> made == MAX_RETRY_ATTEMPTS + 1)
  }

  /** Faults are classified as their verdict says. */
  lemma ClassifiedByVerdict(c: Call, phase: Phase)
    requires c.answer.Fault? && PhaseRole(phase) == TokenOf(c.op)
    ensures
      match Classify(c.answer.error, phase)
      case Halting(trouble, details) => VerdictOnFault(c) == Stops(trouble) && Tells(details, c)
      case Retryable(details) => WorthRepeating(c) && Tells(details, c)
      case Permanent(details) => VerdictOnFault(c) == EndsIn(PermanentFailed) && Tells(details, c)
      case _ => false
  {
  }

  ghost predicate TookEffect(before: Snapshot, who: Parties, op: Op, newId: string, after: Snapshot, a: Answer) {
    FreshId(before, who, newId) && Effect(before, who, op, newId) == Some((after, a))
  }

  /** What a truthful Drive may do with a call, given the file before it. */
  ghost predicate Follows(who: Parties, mode: Mode, before: Snapshot, op: Op, after: Snapshot, a: Answer) {
    if a.Fault? then
      && (op.GetFile? ==> after == before)
      && (before.owners == [who.source] && !op.AcceptOwnership? ==> after.owners == [who.source])
      && (mode == Reliable ==> after == before && !Willing(before, who, op))
    else
      exists x :: TookEffect(before, who, op, x, after, a)
  }

  /** The file between two moments of one phase of calls: reads change nothing, asking for a pending owner leaves the
      source owning, and a call reported done has done its work. */
  ghost predicate PhaseDone(who: Parties, before: Snapshot, op: Op, after: Snapshot, r: Answered) {
    && (op.GetFile? ==> after == before)
    && (before.owners == [who.source] && !op.AcceptOwnership? ==> after.owners == [who.source])
    && (r.Ok? ==>
          && (op.GetFile? ==> r.answer == File(after))
          && (op.AcceptOwnership? ==> after.owners == [who.target])
          && ((op.CreatePendingOwner? || op.UpdatePendingOwner?) ==>
                && after.owners == [who.source] && r.answer.Granted?
                && PendingAt(after, who, r.answer.permission.id)))
  }

  lemma PhaseGoesOn(who: Parties, mode: Mode, row: Row, before: Snapshot, mid: Snapshot, op: Op, after: Snapshot,
      a: Answer)
    requires PhaseDone(who, before, op, mid, Err(StoreFailed))
    requires Linked(row, mid, who) && Follows(who, mode, mid, op, after, a)
    requires MayCall(row, op)
    ensures PhaseDone(who, before, op, after, if a.Fault? then Err(StoreFailed) else Ok(a))
  {
    if !a.Fault? {
      var x :| TookEffect(mid, who, op, x, after, a);
      if op.CreatePendingOwner? || op.UpdatePendingOwner? { GrantKeepsSane(mid, who, row.parents, op, x); }
    }
  }

  /** Drive would carry the call out. */
  predicate Willing(s: Snapshot, who: Parties, op: Op) {
    match op
    case GetFile(_) => true
    case CreatePendingOwner => s.owners == [who.source]
    case UpdatePendingOwner(id) => s.owners == [who.source] && FindTargetPermission(s.permissions, who) != None
                                   && FindTargetPermission(s.permissions, who).value.id == id
    case AcceptOwnership(id) => s.owners == [who.source] && PendingAt(s, who, id)
  }

  /** Whether Drive carries a call out does not depend on the id it would give a new permission. */
  lemma WillingMeansEffect(s: Snapshot, who: Parties, op: Op, newId: string)
    ensures Willing(s, who, op) <==> Effect(s, who, op, newId).Some?
  {
  }

  /** The item in its next state, if the transition table has that edge; entering a skipped state clears the error. */
  function Moved(item: Row, next: ItemState): Option<Row> {
    if item.state.CanTransitionTo(next) then
      Some(item.(state := next, lastError := if next.IsSkipped() then None else item.lastError))
    else None
  }

  function AdvancedToAcceptRequired(item: Row): Option<Row> {
    match item.state
    case Eligible => MovedTwice(Moved(item, PendingOwnerRequired), PendingOwnerCreated, AcceptRequired)
    case RetryableFailed => MovedTwice(Moved(item, PendingOwnerRequired), PendingOwnerCreated, AcceptRequired)
    case PendingOwnerRequired => MovedTwice(Some(item), PendingOwnerCreated, AcceptRequired)
    case PendingOwnerCreated => Moved(item, AcceptRequired)
    case AcceptRequired => Some(item)
    case Accepting => Some(item)
    case _ => None
  }

  function MovedTwice(item: Option<Row>, first: ItemState, second: ItemState): Option<Row> {
    if item.None? then None
    else
      var next := Moved(item.value, first);
      if next.None? then None else Moved(next.value, second)
  }

  /** Advancing walks legal edges only, and succeeds exactly from the states before or at acceptance. */
  lemma AdvancingFollowsTable(item: Row)
    ensures
      var r := AdvancedToAcceptRequired(item);
      && (r.Some? <==>
            item.state in {
              Eligible, RetryableFailed, PendingOwnerRequired, PendingOwnerCreated, AcceptRequired, Accepting})
      && (r.Some? ==> r.value == item.(state := if item.state.Accepting? then Accepting else AcceptRequired))
  {
  }

  /** Everything a run can change. */
  datatype World = World(
    rows: map<string, Row>, remote: map<string, Snapshot>, calls: seq<Call>, slept: nat, retried: seq<Retried>,
    faults: nat)

  /** A request to retry what failed that took effect during a run: the table it met, and the items the run had dealt
      with by then. */
  datatype Retried = Retried(rows: map<string, Row>, dealt: set<string>)

  predicate Resets(request: Retried, id: string) {
    id in request.dealt && id in request.rows && request.rows[id].state.RetryableFailed?
  }

  /** Between two moments a retry request reset an item that the run had already dealt with. */
  predicate ResetSince(before: seq<Retried>, after: seq<Retried>, id: string) {
    exists j :: |before| <= j < |after| && Resets(after[j], id)
  }

  /** Between two moments only this one file was worked on, within these bounds on calls and seconds asleep. */
  ghost predicate Within(mode: Mode, a: World, b: World, id: string, made: nat, nap: nat) {
    && OnlyRow(a.rows, b.rows, id)
    && CallsOn(a.rows, a.calls, b.calls, id, made)
    && a.slept <= b.slept <= a.slept + nap && a.faults <= b.faults
    && (mode != Arbitrary ==> OnlyFile(a.remote, b.remote, id))
  }

  /** The same, and the item did not become verified. */
  ghost predicate Touched(mode: Mode, a: World, b: World, id: string, made: nat, nap: nat) {
    && Within(mode, a, b, id, made, nap)
    && (b.rows[id].state.Verified? ==> a.rows[id].state.Verified?)
  }

  predicate OnlyFile(a: map<string, Snapshot>, b: map<string, Snapshot>, id: string) {
    b.Keys == a.Keys && b - {id} == a - {id}
  }

  lemma TouchedJoin(mode: Mode, a: World, b: World, c: World, id: string, m: nat, x: nat, n: nat, y: nat)
    requires Touched(mode, a, b, id, m, x) && Touched(mode, b, c, id, n, y)
    ensures Touched(mode, a, c, id, m + n, x + y)
  {
  }

  /** The calls of one phase: `n` of them, all the same, and no row written. */
  predicate SameCalls(a: World, b: World, id: string, op: Op, n: int) {
    && id in a.rows && b.rows == a.rows && b.faults == a.faults
    && Repeats(a.calls, b.calls, id, op, a.rows) && |b.calls| == |a.calls| + n
  }

  /** What a phase that ends with this answer has done to Drive. */
  ghost predicate DroveTo(mode: Mode, who: Parties, a: World, b: World, id: string, op: Op, r: Answered) {
    && (mode != Arbitrary ==> PhaseFrom(who, a.remote, id, op, b.remote, r))
    && (mode == Reliable && r.Err? && id in a.remote ==> !Willing(a.remote[id], who, op))
  }

  /** What a phase that has met nothing but faults has done to Drive. */
  ghost predicate InVain(mode: Mode, who: Parties, a: World, b: World, id: string, op: Op) {
    && (mode != Arbitrary ==> PhaseFrom(who, a.remote, id, op, b.remote, Err(StoreFailed)))
    && (mode == Reliable ==> b.remote == a.remote)
  }

  /** A phase of calls from `a` that has had nothing but faults in its first `attempt` calls. */
  ghost predicate Tried(mode: Mode, who: Parties, a: World, b: World, id: string, op: Op, attempt: nat)
    requires attempt < |SLEEP_UP_TO|
  {
    && SameCalls(a, b, id, op, attempt) && InVain(mode, who, a, b, id, op)
    && SleptFor(a, b, attempt) && RepeatedUpTo(a.calls, b.calls, attempt)
  }

  /** The sleeps after this many attempts. */
  predicate SleptFor(a: World, b: World, attempt: nat)
    requires attempt < |SLEEP_UP_TO|
  {
    a.slept + SLEEP_AT_LEAST[attempt] <= b.slept <= a.slept + SLEEP_UP_TO[attempt]
  }

  /** One more sleep. */
  predicate Naps(b: World, c: World, attempt: nat)
    requires attempt < MAX_RETRY_ATTEMPTS
  {
    && c == b.(slept := c.slept)
    && b.slept + SLEEP_AT_LEAST[attempt + 1] - SLEEP_AT_LEAST[attempt] <= c.slept
    && c.slept <= b.slept + SLEEP_UP_TO[attempt + 1] - SLEEP_UP_TO[attempt]
  }

  /** Where a phase stands after one more call, answered so. */
  ghost predicate Asked(mode: Mode, who: Parties, a: World, c: World, id: string, op: Op, attempt: nat, r: Answered)
    requires attempt < |SLEEP_UP_TO|
  {
    && SameCalls(a, c, id, op, attempt + 1) && DroveTo(mode, who, a, c, id, op, r)
    && (r.Err? ==> InVain(mode, who, a, c, id, op))
    && SleptFor(a, c, attempt) && RepeatedUpTo(a.calls, c.calls, attempt)
  }

  lemma NothingTriedYet(mode: Mode, who: Parties, a: World, id: string, op: Op)
    requires id in a.rows && (mode != Arbitrary ==> Truthful(who, a.rows, a.remote))
    ensures Tried(mode, who, a, a, id, op, 0)
  {
  }

  lemma AttemptMade(
    mode: Mode, who: Parties, a: World, b: World, c: World, id: string, op: Op, attempt: nat, r: Answered)
    requires attempt <= MAX_RETRY_ATTEMPTS && Tried(mode, who, a, b, id, op, attempt)
    requires SameCalls(b, c, id, op, 1) && c.slept == b.slept
    requires mode != Arbitrary ==> PhaseFrom(who, a.remote, id, op, c.remote, r)
    requires mode == Reliable && r.Err? ==> c.remote == b.remote && !Willing(b.remote[id], who, op)
    ensures Asked(mode, who, a, c, id, op, attempt, r)
  {
  }

  /** What a bounded retry comes to: it repeats exactly what is worth repeating, six times at most. */
  lemma LastReports(
    mode: Mode, who: Parties, a: World, b: World, id: string, phase: Phase, op: Op, attempt: nat, r: Answered)
    requires attempt <= MAX_RETRY_ATTEMPTS && Asked(mode, who, a, b, id, op, attempt, r)
    requires PhaseRole(phase) == TokenOf(op)
    requires Reports(phase, op, b.calls[|b.calls| - 1].answer, MAX_RETRY_ATTEMPTS + 1, r)
    requires r.Err? && r.outcome.Retryable? ==> attempt == MAX_RETRY_ATTEMPTS
    ensures Reports(phase, op, b.calls[|b.calls| - 1].answer, |b.calls| - |a.calls|, r)
    ensures r.Err? ==> Blames(r.outcome, a, b, who)
    ensures RepeatedUpTo(a.calls, b.calls, |b.calls| - |a.calls| - 1)
  {
    if r.Err? { ClassifiedByVerdict(b.calls[|b.calls| - 1], phase); }
  }

  lemma AskedInVain(
    mode: Mode, who: Parties, a: World, b: World, c: World, id: string, op: Op, attempt: nat, r: Answered)
    requires attempt < MAX_RETRY_ATTEMPTS && Asked(mode, who, a, b, id, op, attempt, r) && r.Err?
    requires Naps(b, c, attempt) && WorthRepeating(b.calls[|b.calls| - 1])
    ensures Tried(mode, who, a, c, id, op, attempt + 1)
  {
  }

  lemma AskedTouches(
    mode: Mode, who: Parties, a: World, b: World, id: string, op: Op, attempt: nat, r: Answered)
    requires attempt <= MAX_RETRY_ATTEMPTS && Asked(mode, who, a, b, id, op, attempt, r)
    ensures Touched(mode, a, b, id, MAX_RETRY_ATTEMPTS + 1, 69)
  {
  }

  /** Looks at one file, each of at most seven calls, with the sleeps between them. */
  ghost predicate LookedFor(mode: Mode, a: World, b: World, id: string, attempt: nat)
    requires attempt < |SLEEP_UP_TO|
  {
    && Touched(mode, a, b, id, 7 * attempt, 69 * attempt + SLEEP_UP_TO[attempt])
    && |b.calls| >= |a.calls| + attempt && b.slept >= a.slept + SLEEP_AT_LEAST[attempt]
  }

  lemma LookedAgain(mode: Mode, a: World, b: World, c: World, id: string, attempt: nat)
    requires attempt <= MAX_RETRY_ATTEMPTS && LookedFor(mode, a, b, id, attempt) && Touched(mode, b, c, id, 7, 69)
    ensures Touched(mode, a, c, id, 7 * attempt + 7, 69 * attempt + SLEEP_UP_TO[attempt] + 69)
    ensures Touched(mode, a, c, id, 49, 552)
  {
    TouchedJoin(mode, a, b, c, id, 7 * attempt, 69 * attempt + SLEEP_UP_TO[attempt], 7, 69);
  }

  lemma LookedInVain(mode: Mode, a: World, b: World, c: World, id: string, attempt: nat)
    requires attempt < MAX_RETRY_ATTEMPTS
    requires Touched(mode, a, b, id, 7 * attempt + 7, 69 * attempt + SLEEP_UP_TO[attempt] + 69)
    requires |b.calls| > |a.calls| + attempt && b.slept >= a.slept + SLEEP_AT_LEAST[attempt] && Naps(b, c, attempt)
    ensures LookedFor(mode, a, c, id, attempt + 1)
  {
  }

  /** What saving a row and then making one call under it comes to. */
  ghost predicate AskedUnder(mode: Mode, who: Parties, a: World, b: World, out: Row, op: Op, r: Answered) {
    && (forall k :: |a.calls| <= k < |b.calls| ==> b.calls[k].op == op)
    && (r.Ok? || !r.outcome.StoreFailed? ==> Saved(out, b.rows))
    && (if r.Ok? then AnswerFits(op, r.answer) && !r.answer.Fault?
        else !r.outcome.InvalidState? && Blames(r.outcome, a, b, who))
    && (mode != Arbitrary ==>
          && out.fileId in a.remote && out.fileId in b.remote
          && PhaseDone(who, a.remote[out.fileId], op, b.remote[out.fileId], r)
          && (mode == Reliable && r.Err? ==> !Willing(a.remote[out.fileId], who, op)))
  }

  /** The row could not be saved, so nothing was asked. */
  lemma NotAsked(mode: Mode, who: Parties, a: World, b: World, out: Row, op: Op)
    requires mode != Reliable && b.faults > a.faults && b.calls == a.calls && b.remote == a.remote
    requires mode != Arbitrary ==> out.fileId in a.remote
    ensures AskedUnder(mode, who, a, b, out, op, Err(StoreFailed))
  {
  }

  lemma AskedAfterSave(
    mode: Mode, who: Parties, a: World, b: World, c: World, out: Row, phase: Phase, op: Op, r: Answered)
    requires b.calls == a.calls && b.remote == a.remote && Saved(out, b.rows)
    requires SameCalls(b, c, out.fileId, op, |c.calls| - |b.calls|) && DroveTo(mode, who, b, c, out.fileId, op, r)
    requires mode != Arbitrary ==> out.fileId in a.remote
    requires c.calls != [] && Reports(phase, op, c.calls[|c.calls| - 1].answer, |c.calls| - |b.calls|, r)
    requires r.Err? ==> Blames(r.outcome, b, c, who) && a.slept <= b.slept && a.faults <= b.faults
    ensures AskedUnder(mode, who, a, c, out, op, r)
  {
  }

  /** Under this row the protocol may make this call. */
  predicate MayCall(row: Row, op: Op) {
    match op
    case GetFile(_) => true
    case AcceptOwnership(id) => row.state.Accepting? && row.targetPermission == Some(id)
    case _ => row.state.PendingOwnerRequired?
  }

  /** One row for each file; no scan leaves an item merely discovered. */
  predicate Keyed(rows: map<string, Row>) {
    forall id :: id in rows ==> rows[id].fileId == id && !rows[id].state.Discovered?
  }

  predicate AcceptsFollowRows(calls: seq<Call>) {
    forall k :: 0 <= k < |calls| ==> AcceptFollowsRow(calls[k])
  }

  /** Two tables that agree without one key agree at every other key. */
  lemma SameElsewhere<T>(a: map<string, T>, b: map<string, T>, id: string)
    requires id in a && id in b && a - {id} == b - {id}
    ensures a.Keys == b.Keys
    ensures forall x :: x in a && x != id ==> b[x] == a[x]
    ensures a[id] == b[id] ==> a == b
  {
    forall x | x != id ensures (x in a <==> x in b) && (x in a ==> a[x] == b[x]) {
      assert x in a <==> x in a - {id};
      assert x in b <==> x in b - {id};
      if x in a { assert (a - {id})[x] == (b - {id})[x]; }
    }
  }

  /** Every saved row fits the file it is about. */
  ghost predicate Truthful(who: Parties, rows: map<string, Row>, remote: map<string, Snapshot>) {
    forall id :: id in rows ==> id in remote && Linked(rows[id], remote[id], who)
  }

  /** Drive over one phase of calls about file `id`: other files stand still. */
  ghost predicate PhaseFrom(
    who: Parties, before: map<string, Snapshot>, id: string, op: Op, after: map<string, Snapshot>, r: Answered)
  {
    && after.Keys == before.Keys && id in before
    && after - {id} == before - {id}
    && PhaseDone(who, before[id], op, after[id], r)
  }

  /** One more call of a phase that has had only faults so far. */
  lemma PhaseContinues(
    who: Parties, mode: Mode, row: Row, before: map<string, Snapshot>, mid: map<string, Snapshot>, op: Op,
    after: map<string, Snapshot>, a: Answer)
    requires PhaseFrom(who, before, row.fileId, op, mid, Err(StoreFailed))
    requires Linked(row, mid[row.fileId], who) && MayCall(row, op)
    requires OnlyFile(mid, after, row.fileId)
    requires Follows(who, mode, mid[row.fileId], op, after[row.fileId], a)
    ensures PhaseFrom(who, before, row.fileId, op, after, if a.Fault? then Err(StoreFailed) else Ok(a))
    ensures mode == Reliable && a.Fault? ==> after == mid && !Willing(mid[row.fileId], who, op)
  {
    PhaseGoesOn(who, mode, row, before[row.fileId], mid[row.fileId], op, after[row.fileId], a);
    if mode == Reliable && a.Fault? { SameElsewhere(mid, after, row.fileId); }
  }

  /** Accepting this item would not be refused because the target owns it already. */
  ghost predicate Acceptable(row: Row, s: Snapshot, who: Parties) {
    row.state.Accepting? ==> s.owners == [who.source]
  }

  predicate ReadsOnly(before: seq<Call>, after: seq<Call>) {
    before <= after && forall k :: |before| <= k < |after| ==> after[k].op.GetFile?
  }

  /** The row an interrupted item should have, given what Drive shows. */
  function Reconciled(item: Row, s: Snapshot, who: Parties): Row {
    if s.trashed then item.(state := SkippedTrashed, lastError := None)
    else if who.target in s.owners && who.source !in s.owners then
      (if item.state.PendingOwnerCreated? || item.state.Accepting? then item.(state := Verifying) else item)
    else
      match FindTargetPermission(s.permissions, who)
      case Some(p) =>
        item.(targetPermission := Some(p.id),
              state := if p.pendingOwner && item.state.PendingOwnerCreated? then AcceptRequired else item.state)
      case None => item
  }

  /** Reconciling moves along the table, and where Drive is truthful it leaves a row that fits the file, is still to
      be transferred, and is not waiting to accept what the target owns already. */
  lemma ReconciledFits(item: Row, s: Snapshot, who: Parties)
    requires item.state.IsIntermediateCheckpoint()
    ensures
      var r := Reconciled(item, s, who);
      && item.state.CanTransitionTo(r.state) && SameItem(item, r) && !r.state.Verified? && !r.state.Discovered?
      && (Linked(item, s, who) ==> Linked(r, s, who) && r.state.IsTransferActive() && Acceptable(r, s, who))
  {
    if Linked(item, s, who) && item.state.Accepting? && s.owners == [who.source] {
      PendingIsFound(s, who, item.parents, item.targetPermission.value);
    }
  }

  predicate TargetAlone(s: Snapshot, who: Parties) {
    who.target in s.owners && who.source !in s.owners
  }

  /** Where one read says an interrupted item stands: skipped when in the trash, left to be verified when the target
      alone owns it, ready to accept when its pending owner is the target and that was not noted yet. */
  predicate StandsAsRead(item: Row, row: Row, s: Snapshot, who: Parties) {
    var found := FindTargetPermission(s.permissions, who);
    && SameItem(item, row)
    && (row.state.SkippedTrashed? <==> s.trashed)
    && (row.state.Verifying? <==>
          !s.trashed && (item.state.Verifying? || (TargetAlone(s, who) && !item.state.Transferred?)))
    && (row.state.AcceptRequired? <==>
          !s.trashed && !TargetAlone(s, who) && item.state.PendingOwnerCreated? && found.Some?
              && found.value.pendingOwner)
    && (!row.state.SkippedTrashed? && !row.state.Verifying? && !row.state.AcceptRequired? ==> row.state == item.state)
    && row.targetPermission == (if s.trashed || TargetAlone(s, who) || found.None? then item.targetPermission
                                else Some(found.value.id))
    && row.lastError == if s.trashed then None else item.lastError
  }

  lemma ReconciledAsRead(item: Row, s: Snapshot, who: Parties)
    requires item.state.IsIntermediateCheckpoint()
    ensures StandsAsRead(item, Reconciled(item, s, who), s, who)
  {
  }

  /** What is saved of an item that could not be read: a missing file is given up, a refused token is noted. */
  predicate UnreadAs(item: Row, row: Row, error: DriveError) {
    row == item.(
      state := if error.NotFound? then PermanentFailed else item.state,
      lastError := if error.NotFound? || error.Unauthorized? then Some(OfDrive(error)) else item.lastError)
  }

  /** The account an interrupted item is read with: the target's once acceptance was begun. */
  function ReaderOf(state: ItemState): AccountRole {
    if state.PendingOwnerCreated? then Source else Target
  }

  /** One look at an item is one read, and what is saved and reported follows from its answer. A look fails when the
      store does, or with any other fault of Drive, which changes nothing. */
  predicate LooksOnce(a: World, b: World, item: Row, ok: bool, halt: Option<Trouble>, who: Parties) {
    && |b.calls| == |a.calls| + 1 && item.fileId in b.rows
    && var c, row := b.calls[|a.calls|], b.rows[item.fileId];
       && c.fileId == item.fileId && c.op == GetFile(ReaderOf(item.state))
       && (if ok then
             && (c.answer.File? ==> StandsAsRead(item, row, c.answer.snapshot, who))
             && (c.answer.Fault? ==>
                   (c.answer.error.NotFound? || c.answer.error.Unauthorized?) && UnreadAs(item, row, c.answer.error))
             && halt == TroubleOf(c)
           else
             && halt.None?
             && (|| b.faults > a.faults
                 || (c.answer.Fault? && !c.answer.error.NotFound? && !c.answer.error.Unauthorized? && row == item)))
  }

  /** How one look at an interrupted item ends. */
  ghost predicate LookedOver(
    mode: Mode, who: Parties, a: World, b: World, item: Row, ok: bool, halt: Option<Trouble>)
  {
    && LooksOnce(a, b, item, ok, halt, who)
    && ReadsOnly(a.calls, b.calls) && (mode != Arbitrary ==> b.remote == a.remote)
    && (halt.Some? ==>
          && ok && halt.value.AuthRequired? && b.calls != [] && TroubleOf(b.calls[|b.calls| - 1]) == halt
          && item.fileId in b.rows && b.rows[item.fileId].state == item.state)
    && (mode == Reliable ==>
          && ok && halt.None?
          && item.fileId in b.rows && b.rows[item.fileId].state.IsTransferActive()
          && item.fileId in b.remote && Acceptable(b.rows[item.fileId], b.remote[item.fileId], who))
  }

  /** One read: the file stands as it was, and in the truthful modes the answer shows it. */
  lemma OneRead(mode: Mode, who: Parties, a: World, b: World, item: Row, role: AccountRole, answer: Answer)
    requires Saved(item, a.rows) && b.rows == a.rows && b.slept == a.slept && b.faults == a.faults
    requires
      b.calls == a.calls + [Call(item.fileId, GetFile(role), answer, a.rows[item.fileId], a.rows - {item.fileId})]
    requires mode != Arbitrary ==>
               && item.fileId in a.remote && item.fileId in b.remote && OnlyFile(a.remote, b.remote, item.fileId)
               && Follows(who, mode, a.remote[item.fileId], GetFile(role), b.remote[item.fileId], answer)
    ensures Touched(mode, a, b, item.fileId, 1, 0) && ReadsOnly(a.calls, b.calls)
    ensures |b.calls| == |a.calls| + 1 && b.calls[|a.calls|].fileId == item.fileId
    ensures b.calls[|a.calls|].op == GetFile(role) && b.calls[|a.calls|].answer == answer
    ensures mode != Arbitrary ==> b.remote == a.remote && (answer.File? ==> answer.snapshot == a.remote[item.fileId])
  {
    if mode != Arbitrary { SameElsewhere(a.remote, b.remote, item.fileId); }
  }

  predicate NotedAs(
    b: World, c: World, item: Row, error: DriveError, role: AccountRole, ok: bool, halt: Option<Trouble>)
    requires item.fileId in c.rows
  {
    if ok then
      && (error.NotFound? || error.Unauthorized?) && UnreadAs(item, c.rows[item.fileId], error)
      && halt == if error.Unauthorized? then Some(AuthRequired(role)) else None
    else
      && halt.None?
      && (c.faults > b.faults || (!error.NotFound? && !error.Unauthorized? && c.rows[item.fileId] == item))
  }

  lemma UnreadableNoted(
    mode: Mode, who: Parties, a: World, b: World, c: World, item: Row, role: AccountRole, error: DriveError, ok: bool,
    halt: Option<Trouble>)
    requires Touched(mode, a, b, item.fileId, 1, 0) && Touched(mode, b, c, item.fileId, 0, 0) && mode != Reliable
    requires ReadsOnly(a.calls, b.calls) && (mode != Arbitrary ==> b.remote == a.remote)
    requires |b.calls| == |a.calls| + 1 && b.calls[|a.calls|].fileId == item.fileId && role == ReaderOf(item.state)
    requires b.calls[|a.calls|].op == GetFile(role) && b.calls[|a.calls|].answer == Fault(error)
    requires c.calls == b.calls && c.remote == b.remote && item.fileId in c.rows && a.faults <= b.faults
    requires NotedAs(b, c, item, error, role, ok, halt)
    ensures Touched(mode, a, c, item.fileId, 1, 0) && LookedOver(mode, who, a, c, item, ok, halt)
  {
  }

  lemma ReadingSaved(
    mode: Mode, who: Parties, a: World, b: World, c: World, item: Row, role: AccountRole, s: Snapshot, ok: bool)
    requires item.state.IsIntermediateCheckpoint()
    requires Touched(mode, a, b, item.fileId, 1, 0) && Touched(mode, b, c, item.fileId, 0, 0)
    requires ReadsOnly(a.calls, b.calls) && c.calls == b.calls && c.remote == b.remote
    requires mode != Arbitrary ==> b.remote == a.remote && item.fileId in a.remote && a.remote[item.fileId] == s
    requires mode != Arbitrary ==> Linked(item, s, who)
    requires mode == Reliable ==> ok
    requires |b.calls| == |a.calls| + 1 && b.calls[|a.calls|].fileId == item.fileId && role == ReaderOf(item.state)
    requires b.calls[|a.calls|].op == GetFile(role) && b.calls[|a.calls|].answer == File(s)
    requires if ok then Saved(Reconciled(item, s, who), c.rows) else c.faults > b.faults
    ensures Touched(mode, a, c, item.fileId, 1, 0) && LookedOver(mode, who, a, c, item, ok, None)
  {
    ReconciledFits(item, s, who);
    ReconciledAsRead(item, s, who);
  }

  /** Looks at items of a set: no other row moved, nothing was called but reads, and Drive stands. */
  ghost predicate OnlyLooked(mode: Mode, a: World, b: World, ids: set<string>) {
    && b.rows.Keys == a.rows.Keys && b.rows - ids == a.rows - ids
    && ReadsOnly(a.calls, b.calls) && (mode != Arbitrary ==> b.remote == a.remote)
  }

  /** Of the first `n` items, each that an interruption may have left between two steps was read. */
  predicate ReadSince(a: seq<Call>, b: seq<Call>, items: seq<Row>, n: nat) {
    && a <= b && n <= |items|
    && forall k :: 0 <= k < n && items[k].state.IsIntermediateCheckpoint() ==> WasRead(a, b, items[k])
  }

  predicate WasRead(a: seq<Call>, b: seq<Call>, item: Row) {
    exists j :: |a| <= j < |b| && b[j].fileId == item.fileId && b[j].op == GetFile(ReaderOf(item.state))
  }

  lemma ReadFurther(a: seq<Call>, b: seq<Call>, c: seq<Call>, items: seq<Row>, n: nat)
    requires ReadSince(a, b, items, n) && n < |items| && b <= c
    requires items[n].state.IsIntermediateCheckpoint() ==>
               |c| > |b| && c[|b|].fileId == items[n].fileId && c[|b|].op == GetFile(ReaderOf(items[n].state))
    ensures ReadSince(a, c, items, n + 1)
  {
    forall k | 0 <= k < n + 1 && items[k].state.IsIntermediateCheckpoint() ensures WasRead(a, c, items[k]) {
      if k < n {
        var j :| |a| <= j < |b| && b[j].fileId == items[k].fileId && b[j].op == GetFile(ReaderOf(items[k].state));
        assert c[j] == b[j];
      }
    }
  }

  /** The first `n` items can be transferred as they are saved. */
  ghost predicate Ready(b: World, items: seq<Row>, n: nat, who: Parties) {
    n <= |items| && forall k :: 0 <= k < n ==>
      && items[k].fileId in b.rows && b.rows[items[k].fileId].state.IsTransferActive()
      && items[k].fileId in b.remote && Acceptable(b.rows[items[k].fileId], b.remote[items[k].fileId], who)
  }

  // ---------------------------------------------------------------- runs over many items

  /** One row for each file, each as saved and in the set. */
  predicate Slice(items: seq<Row>, ids: set<string>, rows: map<string, Row>) {
    && (forall j, k :: 0 <= j < k < |items| ==> items[j].fileId != items[k].fileId)
    && (forall k :: 0 <= k < |items| ==> Saved(items[k], rows) && items[k].fileId in ids)
  }

  /** The slice names every file of the set. */
  predicate Covers(items: seq<Row>, ids: set<string>) {
    forall id :: id in ids ==> exists k :: 0 <= k < |items| && items[k].fileId == id
  }

  lemma CoversMore(items: seq<Row>, row: Row, ids: set<string>, left: set<string>)
    requires Covers(items, ids - left)
    ensures Covers(items + [row], ids - (left - {row.fileId}))
  {
    var more := items + [row];
    forall id | id in ids - (left - {row.fileId}) ensures exists k :: 0 <= k < |more| && more[k].fileId == id {
      if id == row.fileId {
        assert more[|items|].fileId == id;
      } else {
        assert id in ids - left;
        var k :| 0 <= k < |items| && items[k].fileId == id;
        assert more[k].fileId == id;
      }
    }
  }

  function ActiveIds(rows: map<string, Row>): set<string> {
    set id | id in rows && rows[id].state.IsTransferActive()
  }

  function CohortIds(rows: map<string, Row>): set<string> {
    set id | id in rows && rows[id].canary
  }

  function ActiveCohort(rows: map<string, Row>): set<string> {
    CohortIds(rows) * ActiveIds(rows)
  }

  /** Nothing is left to transfer outside the canary. */
  predicate CanaryIsAll(rows: map<string, Row>) {
    ActiveIds(rows) <= CohortIds(rows)
  }

  predicate CanaryIsVerified(rows: map<string, Row>) {
    CohortIds(rows) != {} && forall id :: id in CohortIds(rows) ==> rows[id].state.Verified?
  }

  /** An item that may be retried goes back before acceptance, without its error. */
  function RequeuedRow(row: Row): Row {
    if row.state.RetryableFailed? then row.(state := PendingOwnerRequired, lastError := None) else row
  }

  /** What a retry request makes of a job's items. */
  function Requeued(rows: map<string, Row>): map<string, Row> {
    map id | id in rows :: RequeuedRow(rows[id])
  }

  /** A retry request forgives exactly what may be retried: such an item stands before its request again, with its
      permission and its place in the canary; what has failed for good stays so. */
  lemma RetryForgives(rows: map<string, Row>)
    ensures
      var after := Requeued(rows);
      && after.Keys == rows.Keys
      && (forall id :: id in rows ==>
            if rows[id].state.RetryableFailed? then
              && rows[id].state.CanTransitionTo(after[id].state) && MayCall(after[id], CreatePendingOwner)
              && SameItem(rows[id], after[id]) && after[id].targetPermission == rows[id].targetPermission
              && after[id].lastError.None?
            else after[id] == rows[id])
      && (AnyFailed(after) <==> exists id :: id in rows && rows[id].state.PermanentFailed?)
  {
  }

  predicate IsUnstarted(state: ItemState) {
    state.Discovered? || state.Eligible? || state.PendingOwnerRequired? || state.RetryableFailed?
  }

  /** Every item not begun, or waiting to be tried again, is cancelled. */
  function GivenUp(rows: map<string, Row>): map<string, Row> {
    map id | id in rows :: if IsUnstarted(rows[id].state) then rows[id].(state := ItemState.Cancelled) else rows[id]
  }

  /** Cancelling follows the transition table, and leaves nothing to transfer but what was in the middle of it. */
  lemma GivingUpKeepsWhatIsUnderWay(rows: map<string, Row>)
    ensures
      var after := GivenUp(rows);
      && after.Keys == rows.Keys
      && (forall id :: id in rows && !rows[id].state.Discovered? ==> rows[id].state.CanTransitionTo(after[id].state))
      && (forall id :: id in rows ==>
            (after[id].state.IsTransferActive() <==>
             rows[id].state.IsIntermediateCheckpoint() || rows[id].state.AcceptRequired?))
      && (forall id :: id in rows && after[id] != rows[id] ==>
            after[id] == rows[id].(state := ItemState.Cancelled) && !rows[id].state.IsTerminal())
  {
  }

  /** A row as selecting a canary leaves it: flagged, and in a starting batch no longer just eligible. */
  function Marked(row: Row, starting: bool): Row {
    row.(canary := true, state := if starting && row.state.Eligible? then PendingOwnerRequired else row.state)
  }

  predicate MarkOf(a: Row, b: Row) {
    b == Marked(a, false) || b == Marked(a, true)
  }

  predicate SelectedFrom(a: map<string, Row>, b: map<string, Row>) {
    b.Keys == a.Keys
    && forall id :: id in a ==> b[id] == a[id] || (a[id].state.IsTransferActive() && MarkOf(a[id], b[id]))
  }

  /** The first `n` items saved as canary members, the others as they were. */
  predicate MarkedAs(items: seq<Row>, marked: seq<Row>, n: nat, rows: map<string, Row>, starting: bool) {
    && |marked| == n <= |items|
    && (forall k :: 0 <= k < n ==> Saved(marked[k], rows) && marked[k] == Marked(items[k], starting))
    && (forall k :: n <= k < |items| ==> Saved(items[k], rows))
  }

  lemma MarkStep(
    a: map<string, Row>, b: map<string, Row>, c: map<string, Row>, items: seq<Row>, ids: set<string>, marked: seq<Row>,
    i: nat, starting: bool)
    requires Slice(items, ids, a) && i < |items| && items[i].state.IsTransferActive()
    requires SelectedFrom(a, b) && ChangedWithin(a, b, items) && MarkedAs(items, marked, i, b, starting)
    requires c == b || c == b[items[i].fileId := Marked(items[i], starting)]
    ensures SelectedFrom(a, c) && ChangedWithin(a, c, items)
    ensures c == b[items[i].fileId := Marked(items[i], starting)] ==>
              MarkedAs(items, marked + [Marked(items[i], starting)], i + 1, c, starting)
  {
    assert Saved(items[i], a);
    if c != b {
      MarkedSelects(a, b, items, i, starting);
      MarkedGoesOn(b, items, marked, i, starting);
    }
  }

  lemma MarkedSelects(a: map<string, Row>, b: map<string, Row>, items: seq<Row>, i: nat, starting: bool)
    requires i < |items| && Saved(items[i], a) && items[i].state.IsTransferActive()
    requires SelectedFrom(a, b) && ChangedWithin(a, b, items)
    ensures
      var c := b[items[i].fileId := Marked(items[i], starting)];
      SelectedFrom(a, c) && ChangedWithin(a, c, items)
  {
  }

  lemma MarkedGoesOn(b: map<string, Row>, items: seq<Row>, marked: seq<Row>, i: nat, starting: bool)
    requires i < |items| && MarkedAs(items, marked, i, b, starting)
    requires forall j, k :: 0 <= j < k < |items| ==> items[j].fileId != items[k].fileId
    ensures
      var out := Marked(items[i], starting);
      MarkedAs(items, marked + [out], i + 1, b[items[i].fileId := out], starting)
  {
    var out := Marked(items[i], starting);
    var c := b[items[i].fileId := out];
    forall k | 0 <= k < i ensures Saved(marked[k], c) {
      assert marked[k].fileId == items[k].fileId;
    }
  }

  /** Only rows of these items changed. */
  predicate ChangedWithin(a: map<string, Row>, b: map<string, Row>, items: seq<Row>) {
    b.Keys == a.Keys
    && forall id :: id in a && b[id] != a[id] ==> exists k :: 0 <= k < |items| && items[k].fileId == id
  }

  predicate NotTerminal(row: Row) {
    !row.state.IsTerminal()
  }

  predicate NotEligible(row: Row) {
    !row.state.Eligible?
  }

  function Filter(keep: Row -> bool, items: seq<Row>): seq<Row> {
    if items == [] then []
    else Filter(keep, items[..|items| - 1]) + if keep(items[|items| - 1]) then [items[|items| - 1]] else []
  }

  lemma {:induction false} FilterMeaning(keep: Row -> bool, items: seq<Row>)
    ensures forall row :: row in Filter(keep, items) <==> row in items && keep(row)
  {
    if items != [] {
      var rest := items[..|items| - 1];
      FilterMeaning(keep, rest);
      assert items == rest + [items[|items| - 1]];
    }
  }

  lemma {:induction false} FilterSlice(keep: Row -> bool, items: seq<Row>, ids: set<string>, rows: map<string, Row>)
    requires Slice(items, ids, rows)
    ensures Slice(Filter(keep, items), ids, rows)
  {
    if items != [] {
      var rest := items[..|items| - 1];
      FilterSlice(keep, rest, ids, rows);
      FilterMeaning(keep, rest);
      var kept := Filter(keep, rest);
      forall k | 0 <= k < |kept| ensures kept[k].fileId != items[|items| - 1].fileId {
        assert kept[k] in rest;
      }
    }
  }

  lemma UnfinishedCohort(cohort: seq<Row>, rows: map<string, Row>)
    requires Keyed(rows) && Slice(cohort, CohortIds(rows), rows) && Covers(cohort, CohortIds(rows))
    ensures
      var batch := Filter(NotTerminal, cohort);
      Slice(batch, ActiveCohort(rows), rows) && Covers(batch, ActiveCohort(rows))
  {
    var batch := Filter(NotTerminal, cohort);
    FilterMeaning(NotTerminal, cohort);
    FilterSlice(NotTerminal, cohort, CohortIds(rows), rows);
    forall k | 0 <= k < |batch| ensures batch[k].state.IsTransferActive() {
      assert batch[k] in cohort;
      assert batch[k].fileId in rows && rows[batch[k].fileId] == batch[k];
    }
    KeptCovers(cohort, CohortIds(rows), ActiveIds(rows), rows);
  }

  lemma KeptCovers(cohort: seq<Row>, ids: set<string>, active: set<string>, rows: map<string, Row>)
    requires Slice(cohort, ids, rows) && Covers(cohort, ids)
    requires forall id :: id in active ==> id in rows && NotTerminal(rows[id])
    ensures Covers(Filter(NotTerminal, cohort), ids * active)
  {
    var batch := Filter(NotTerminal, cohort);
    FilterMeaning(NotTerminal, cohort);
    forall id | id in ids * active ensures exists k :: 0 <= k < |batch| && batch[k].fileId == id {
      var k :| 0 <= k < |cohort| && cohort[k].fileId == id;
      assert cohort[k] in batch;
      var j :| 0 <= j < |batch| && batch[j] == cohort[k];
      assert batch[j].fileId == id;
    }
  }

  /** Where there was no cohort, the marked items are the whole cohort. */
  lemma NewCohort(a: map<string, Row>, b: map<string, Row>, chosen: seq<Row>, ids: set<string>, batch: seq<Row>,
                  starting: bool)
    requires Slice(chosen, ids, a) && forall k :: 0 <= k < |chosen| ==> chosen[k].state.IsTransferActive()
    requires CohortIds(a) == {} && ChangedWithin(a, b, chosen) && MarkedAs(chosen, batch, |chosen|, b, starting)
    ensures Slice(batch, ActiveCohort(b), b) && Covers(batch, ActiveCohort(b))
  {
    assert forall k :: 0 <= k < |batch| ==> batch[k].fileId == chosen[k].fileId;
    forall id | id in CohortIds(b) ensures exists k :: 0 <= k < |batch| && batch[k].fileId == id {
      assert id !in CohortIds(a) && b[id] != a[id];
      var k :| 0 <= k < |chosen| && chosen[k].fileId == id;
      assert batch[k].fileId == id;
    }
  }

  /** The batch chosen when there is no cohort yet: what is under way, else the first items. */
  function Choice(items: seq<Row>, size: nat): seq<Row> {
    var inProgress := Filter(NotEligible, items);
    if inProgress != [] then inProgress else items[..if size < |items| then size else |items|]
  }

  /** Items outside Eligible that are still to be transferred. */
  function UnderWay(rows: map<string, Row>): set<string> {
    set id | id in rows && rows[id].state.IsTransferActive() && !rows[id].state.Eligible?
  }

  /** What a first canary takes: all that is under way if anything is, else as many items as asked for, all started. */
  predicate Picks(rows: map<string, Row>, batch: seq<Row>, size: nat) {
    if UnderWay(rows) != {} then
      (forall k :: 0 <= k < |batch| ==> batch[k].fileId in UnderWay(rows)) && Covers(batch, UnderWay(rows))
    else
      && |batch| == (if size < |ActiveIds(rows)| then size else |ActiveIds(rows)|)
      && forall k :: 0 <= k < |batch| ==> batch[k].state.PendingOwnerRequired?
  }

  lemma ChoicePicks(items: seq<Row>, size: nat, rows: map<string, Row>, batch: seq<Row>, after: map<string, Row>)
    requires Keyed(rows) && Slice(items, ActiveIds(rows), rows) && Covers(items, ActiveIds(rows))
    requires |items| == |ActiveIds(rows)|
    requires |batch| == |Choice(items, size)|
    requires MarkedAs(Choice(items, size), batch, |batch|, after, Filter(NotEligible, items) == [])
    ensures Picks(rows, batch, size)
  {
    FilterMeaning(NotEligible, items);
    var inProgress := Filter(NotEligible, items);
    if inProgress != [] {
      assert inProgress[0] in items && inProgress[0].fileId in UnderWay(rows);
      forall k | 0 <= k < |batch| ensures batch[k].fileId in UnderWay(rows) {
        assert inProgress[k] in items;
      }
      forall id | id in UnderWay(rows) ensures exists k :: 0 <= k < |batch| && batch[k].fileId == id {
        assert id in ActiveIds(rows);
        var j :| 0 <= j < |items| && items[j].fileId == id;
        assert items[j] in inProgress;
        var k :| 0 <= k < |inProgress| && inProgress[k] == items[j];
        assert batch[k].fileId == id;
      }
    } else {
      forall id | id in ActiveIds(rows) ensures rows[id].state.Eligible? {
        var j :| 0 <= j < |items| && items[j].fileId == id;
        assert items[j] in items && items[j] !in inProgress;
      }
      assert UnderWay(rows) == {};
      forall k | 0 <= k < |batch| ensures batch[k].state.PendingOwnerRequired? {
        assert items[k] in items && items[k] !in inProgress;
      }
    }
  }

  lemma ChoiceIsSlice(items: seq<Row>, size: nat, rows: map<string, Row>)
    requires Slice(items, ActiveIds(rows), rows)
    ensures Slice(Choice(items, size), ActiveIds(rows), rows)
    ensures forall k :: 0 <= k < |Choice(items, size)| ==> Choice(items, size)[k].state.IsTransferActive()
  {
    FilterSlice(NotEligible, items, ActiveIds(rows), rows);
  }

  predicate IsFailed(row: Row) {
    row.state.RetryableFailed? || row.state.PermanentFailed?
  }

  predicate AnyFailed(rows: map<string, Row>) {
    exists id :: id in rows && IsFailed(rows[id])
  }

  /** A run has dealt with the item. */
  predicate Settled(row: Row) {
    row.state.Verified? || row.state.IsSkipped() || IsFailed(row)
  }

  /** Nothing more happens to the item: a run has dealt with it, or it was given up when its job was cancelled. */
  predicate AtRest(row: Row) {
    Settled(row) || row.state.Cancelled?
  }

  /** A call about an item in the set, every row outside it standing as in the table, but for retry requests. */
  predicate CallAmong(c: Call, rows: map<string, Row>, ids: set<string>) {
    && c.fileId in ids && c.fileId in rows && SameItem(c.saved, rows[c.fileId])
    && AlikeOutside(rows, c.others, ids)
  }

  /** Some call from number `n` on showed the item to be transferred. */
  predicate Evidence(n: nat, calls: seq<Call>, item: Row, who: Parties) {
    exists j :: n <= j < |calls| && Confirms(calls[j], item, who)
  }

  /** The items from `next` on are untouched by the run, and so is every row outside the items. */
  predicate RowsProgress(a: map<string, Row>, b: map<string, Row>, items: seq<Row>, ids: set<string>, next: nat) {
    && next <= |items|
    && b.Keys == a.Keys && AlikeOutside(a, b, ids)
    && (forall k :: 0 <= k < |items| ==> items[k].fileId in b && SameItem(items[k], b[items[k].fileId]))
    && (forall k :: next <= k < |items| ==> Held(items[k], b))
  }

  /** The run has dealt with the item: it is settled, unless a retry request has reset it since. */
  predicate DealtWith(before: seq<Retried>, after: seq<Retried>, rows: map<string, Row>, id: string) {
    id in rows && if ResetSince(before, after, id) then rows[id].state.PendingOwnerRequired? else Settled(rows[id])
  }

  /** The first `n` items are dealt with, and no retry request has reset another. */
  predicate RetriesProgress(
    a: seq<Retried>, b: seq<Retried>, rows: map<string, Row>, items: seq<Row>, ids: set<string>, n: nat)
  {
    && a <= b && n <= |items|
    && (forall j :: |a| <= j < |b| ==> b[j].dealt <= ids)
    && (forall k :: 0 <= k < n ==> DealtWith(a, b, rows, items[k].fileId))
    && (forall k :: n <= k < |items| ==> !ResetSince(a, b, items[k].fileId))
  }

  /** Every call since then was about one of the items. */
  predicate CallsProgress(rows: map<string, Row>, a: seq<Call>, b: seq<Call>, ids: set<string>) {
    a <= b && forall k :: |a| <= k < |b| ==> CallAmong(b[k], rows, ids)
  }

  /** Every item that became verified was shown to be transferred. */
  predicate EvidenceProgress(
    rows: map<string, Row>, a: nat, b: seq<Call>, items: seq<Row>, n: nat, who: Parties)
    requires n <= |items| && forall k :: 0 <= k < |items| ==> items[k].fileId in rows
  {
    forall k :: 0 <= k < n && NewlyVerified(items[k], rows[items[k].fileId]) ==> Evidence(a, b, items[k], who)
  }

  predicate NewlyVerified(before: Row, after: Row) {
    after.state.Verified? && !before.state.Verified?
  }

  predicate FilesProgress(
    a: map<string, Snapshot>, b: map<string, Snapshot>, items: seq<Row>, ids: set<string>, next: nat)
  {
    && b.Keys == a.Keys && (forall id :: id in a && id !in ids ==> b[id] == a[id])
    && forall k :: next <= k < |items| && items[k].fileId in a ==> b[items[k].fileId] == a[items[k].fileId]
  }

  /** A run from `a` to `b` that has dealt with the first `settled` items and not yet touched those from `next` on. */
  ghost predicate Progress(
    mode: Mode, who: Parties, a: World, b: World, items: seq<Row>, ids: set<string>, settled: nat, next: nat)
  {
    && settled <= next && RowsProgress(a.rows, b.rows, items, ids, next) && a.faults <= b.faults
    && RetriesProgress(a.retried, b.retried, b.rows, items, ids, settled)
    && CallsProgress(a.rows, a.calls, b.calls, ids)
    && EvidenceProgress(b.rows, |a.calls|, b.calls, items, next, who)
    && (mode != Arbitrary ==> FilesProgress(a.remote, b.remote, items, ids, next))
  }

  lemma ProgressStarts(mode: Mode, who: Parties, a: World, items: seq<Row>, ids: set<string>)
    requires Slice(items, ids, a.rows)
    ensures Progress(mode, who, a, a, items, ids, 0, 0)
  {
  }

  function CountVerified(items: seq<Row>, rows: map<string, Row>, n: nat): nat
    requires n <= |items| && forall k :: 0 <= k < |items| ==> items[k].fileId in rows
  {
    if n == 0 then 0
    else CountVerified(items, rows, n - 1) + if rows[items[n - 1].fileId].state.Verified? then 1 else 0
  }

  function CountFailed(items: seq<Row>, rows: map<string, Row>, n: nat): nat
    requires n <= |items| && forall k :: 0 <= k < |items| ==> items[k].fileId in rows
  {
    if n == 0 then 0
    else
      CountFailed(items, rows, n - 1)
      + if HasFailed(rows[items[n - 1].fileId]) then 1 else 0
  }

  /** The item is saved as failed, or was and has been reset since. */
  predicate HasFailed(row: Row) {
    IsFailed(row) || row.state.PendingOwnerRequired?
  }

  /** How many of the first `n` items have been verified and how many have failed. */
  predicate Counted(items: seq<Row>, rows: map<string, Row>, n: nat, verified: nat, failed: nat)
    requires n <= |items| && forall k :: 0 <= k < |items| ==> items[k].fileId in rows
  {
    verified == CountVerified(items, rows, n) && failed == CountFailed(items, rows, n)
  }

  lemma CohortStands(a: map<string, Row>, b: map<string, Row>, items: seq<Row>, ids: set<string>, next: nat)
    requires Slice(items, ids, a) && Covers(items, ids) && RowsProgress(a, b, items, ids, next)
    ensures CohortIds(b) == CohortIds(a)
  {
    forall id | id in a ensures b[id].canary == a[id].canary {
      if id in ids {
        var k :| 0 <= k < |items| && items[k].fileId == id;
      }
    }
  }

  /** A run over the whole of a set puts the set to rest but for what a retry request reset behind it. */
  lemma RunSettles(
    a: seq<Retried>, b: seq<Retried>, rows: map<string, Row>, items: seq<Row>, ids: set<string>, id: string)
    requires Covers(items, ids) && RetriesProgress(a, b, rows, items, ids, |items|) && id in ids
    ensures DealtWith(a, b, rows, id)
  {
    var k :| 0 <= k < |items| && items[k].fileId == id;
  }

  /** Nothing outside the set is ever reset behind the run. */
  lemma NotResetOutside(
    a: seq<Retried>, b: seq<Retried>, rows: map<string, Row>, items: seq<Row>, ids: set<string>, n: nat, id: string)
    requires RetriesProgress(a, b, rows, items, ids, n) && id !in ids
    ensures !ResetSince(a, b, id)
  {
  }

  lemma {:induction false} AllCounted(items: seq<Row>, rows: map<string, Row>, n: nat)
    requires n <= |items| && forall k :: 0 <= k < |items| ==> items[k].fileId in rows
    ensures CountVerified(items, rows, n) <= n
    ensures CountVerified(items, rows, n) == n ==> forall k :: 0 <= k < n ==> rows[items[k].fileId].state.Verified?
  {
    if n > 0 { AllCounted(items, rows, n - 1); }
  }

  lemma RowStands(b: map<string, Row>, c: map<string, Row>, id: string, ids: set<string>)
    requires OnlyRow(b, c, id) && id in ids
    ensures c.Keys == b.Keys && c - ids == b - ids
    ensures forall x :: x in b && x != id ==> c[x] == b[x]
  {
    SameElsewhere(b, c, id);
    assert c - ids == (c - {id}) - ids == (b - {id}) - ids == b - ids;
  }

  /** One more look, at item `i`: the later items stand as they were saved. */
  lemma LookedOn(
    mode: Mode, who: Parties, a: World, b: World, c: World, items: seq<Row>, ids: set<string>, i: nat, ok: bool,
    halt: Option<Trouble>)
    requires Slice(items, ids, a.rows) && i < |items| && OnlyLooked(mode, a, b, ids)
    requires Touched(mode, b, c, items[i].fileId, 1, 0) && LookedOver(mode, who, b, c, items[i], ok, halt)
    requires forall k :: i <= k < |items| ==> Saved(items[k], b.rows)
    requires mode == Reliable ==> Ready(b, items, i, who)
    ensures OnlyLooked(mode, a, c, ids)
    ensures forall k :: i < k < |items| ==> Saved(items[k], c.rows)
    ensures mode == Reliable ==> Ready(c, items, i + 1, who)
  {
    RowStands(b.rows, c.rows, items[i].fileId, ids);
  }

  /** A run from `a` that has dealt with the first `n` items and stands between two of them. */
  ghost predicate RunAt(
    mode: Mode, who: Parties, a: World, b: World, items: seq<Row>, ids: set<string>, n: nat, verified: nat,
    failed: nat)
  {
    && Progress(mode, who, a, b, items, ids, n, n)
    && Counted(items, b.rows, n, verified, failed)
    && (mode == Reliable && AllAcceptable(items, a.remote, who) ==> verified == n && failed == 0)
  }

  /** How a run ends: every item before `at` is verified, skipped or failed, unless a retry request has reset it, and
      every later one untouched; item `at` itself is untouched when the run stopped between two items, and saved as
      unfinished with its error when it stopped in trouble. */
  ghost predicate RunEnds(
    mode: Mode, who: Parties, a: World, b: World, items: seq<Row>, ids: set<string>, at: nat, r: Option<Halt>)
  {
    match r
    case None =>
      && at < |items| && Progress(mode, who, a, b, items, ids, at, at + 1)
      && (b.faults > a.faults || items[at].state.PendingOwnerCreated?)
    case Some(InTrouble(trouble)) =>
      && at < |items| && Progress(mode, who, a, b, items, ids, at, at + 1)
      && EndsAs(Halted(trouble), b.rows[items[at].fileId])
      && b.calls != [] && TroubleOf(b.calls[|b.calls| - 1]) == Some(trouble)
    case Some(Exhausted(verified, failed)) =>
      at == |items| && RunAt(mode, who, a, b, items, ids, at, verified, failed)
    case Some(_) => Progress(mode, who, a, b, items, ids, at, at)
  }

  lemma RunStarts(mode: Mode, who: Parties, a: World, items: seq<Row>, ids: set<string>)
    requires Slice(items, ids, a.rows)
    ensures RunAt(mode, who, a, a, items, ids, 0, 0, 0)
  {
    ProgressStarts(mode, who, a, items, ids);
  }

  lemma RunBreaksOff(
    mode: Mode, who: Parties, a: World, b: World, items: seq<Row>, ids: set<string>, n: nat, verified: nat, failed: nat,
    halt: Halt)
    requires RunAt(mode, who, a, b, items, ids, n, verified, failed) && (halt.PauseRequested? || halt.CancelRequested?)
    ensures RunEnds(mode, who, a, b, items, ids, n, Some(halt))
  {
  }

  lemma RunRunsOut(
    mode: Mode, who: Parties, a: World, b: World, items: seq<Row>, ids: set<string>, verified: nat, failed: nat)
    requires RunAt(mode, who, a, b, items, ids, |items|, verified, failed)
    ensures RunEnds(mode, who, a, b, items, ids, |items|, Some(Exhausted(verified, failed)))
  {
  }

  lemma {:induction false} CountsStand(items: seq<Row>, b: map<string, Row>, c: map<string, Row>, n: nat)
    requires n <= |items| && forall k :: 0 <= k < |items| ==> items[k].fileId in b && items[k].fileId in c
    requires forall k :: 0 <= k < n ==> c[items[k].fileId] == b[items[k].fileId]
    ensures CountVerified(items, c, n) == CountVerified(items, b, n)
    ensures CountFailed(items, c, n) == CountFailed(items, b, n)
  {
    if n > 0 { CountsStand(items, b, c, n - 1); }
  }

  /** One item's step carries the run past it: untouched items stay so, and verification still has its evidence. */
  lemma ProgressStep(
    mode: Mode, who: Parties, a: World, b: World, c: World, items: seq<Row>, ids: set<string>, i: nat)
    requires Slice(items, ids, a.rows) && i < |items| && Progress(mode, who, a, b, items, ids, i, i)
    requires Within(mode, b, c, items[i].fileId, 70, 759) && c.retried == b.retried
    requires NewlyVerified(items[i], c.rows[items[i].fileId]) ==>
               |c.calls| > |b.calls| && Confirms(c.calls[|c.calls| - 1], items[i], who)
    ensures Progress(mode, who, a, c, items, ids, i, i + 1)
    ensures forall k :: 0 <= k < i ==> c.rows[items[k].fileId] == b.rows[items[k].fileId]
  {
    RowsStep(a.rows, b.rows, c.rows, items, ids, i);
    CallsStep(a.rows, b.rows, a.calls, b.calls, c.calls, items, ids, i);
    EvidenceStep(b.rows, c.rows, |a.calls|, b.calls, c.calls, items, i, who);
    if mode != Arbitrary { FilesStep(a.remote, b.remote, c.remote, items, ids, i); }
  }

  /** An item dealt with moves the run on. */
  lemma ProgressSettles(
    mode: Mode, who: Parties, a: World, c: World, items: seq<Row>, ids: set<string>, i: nat)
    requires i < |items| && Progress(mode, who, a, c, items, ids, i, i + 1) && Settled(c.rows[items[i].fileId])
    ensures Progress(mode, who, a, c, items, ids, i + 1, i + 1)
  {
  }

  /** How a run goes on after a step: the counts grow, or the run stops. */
  function AfterStep(step: StepResult, verified: nat, failed: nat): Stepped {
    match step
    case Done(state) => GoesOn(if state.Verified? then verified + 1 else verified, failed)
    case Halted(trouble) => StopsWith(Some(InTrouble(trouble)))
    case Failed => GoesOn(verified, failed + 1)
    case Fatal => StopsWith(None)
  }

  ghost predicate StepsOn(
    mode: Mode, who: Parties, a: World, c: World, items: seq<Row>, ids: set<string>, i: nat, s: Stepped)
  {
    && i < |items| && Progress(mode, who, a, c, items, ids, i, i + 1)
    && (s.GoesOn? ==> RunAt(mode, who, a, c, items, ids, i + 1, s.verified, s.failed))
    && (s.StopsWith? ==> RunEnds(mode, who, a, c, items, ids, i, s.halt) && !IsStop(s.halt))
  }

  /** What a retry request does behind a run that has dealt with the first `n` items. */
  function ResetBehind(b: World, items: seq<Row>, n: nat): World
    requires n <= |items|
  {
    b.(rows := Requeued(b.rows), retried := b.retried + [Retried(b.rows, Names(items, n))])
  }

  /** A retry request between two items: it resets what has failed, whether the run has dealt with it or not. */
  lemma RunRetried(
    mode: Mode, who: Parties, a: World, b: World, c: World, items: seq<Row>, ids: set<string>, n: nat, verified: nat,
    failed: nat)
    requires Slice(items, ids, a.rows) && RunAt(mode, who, a, b, items, ids, n, verified, failed)
    requires c == ResetBehind(b, items, n).(faults := c.faults) && b.faults <= c.faults
    ensures RunAt(mode, who, a, c, items, ids, n, verified, failed)
  {
    RetriesGoOn(a.retried, b.retried, b.rows, items, ids, a.rows, n);
    RequeuingKeepsCounts(items, b.rows, n);
  }

  /** The files of the first `n` items. */
  function Names(items: seq<Row>, n: nat): set<string>
    requires n <= |items|
  {
    set k | 0 <= k < n :: items[k].fileId
  }

  lemma RetriesGoOn(
    a: seq<Retried>, b: seq<Retried>, rows: map<string, Row>, items: seq<Row>, ids: set<string>,
    start: map<string, Row>, n: nat)
    requires Slice(items, ids, start) && RetriesProgress(a, b, rows, items, ids, n)
    ensures RetriesProgress(a, b + [Retried(rows, Names(items, n))], Requeued(rows), items, ids, n)
  {
    var request := Retried(rows, Names(items, n));
    var c := b + [request];
    forall id ensures ResetSince(a, c, id) <==> ResetSince(a, b, id) || Resets(request, id) {
      if ResetSince(a, b, id) {
        var j :| |a| <= j < |b| && Resets(b[j], id);
        assert Resets(c[j], id);
      }
      if Resets(request, id) { assert Resets(c[|b|], id); }
    }
    forall k | 0 <= k < n ensures DealtWith(a, c, Requeued(rows), items[k].fileId) {
      assert DealtWith(a, b, rows, items[k].fileId) && items[k].fileId in request.dealt;
    }
    forall k | n <= k < |items| ensures items[k].fileId !in request.dealt {
    }
  }

  lemma {:induction false} RequeuingKeepsCounts(items: seq<Row>, rows: map<string, Row>, n: nat)
    requires n <= |items| && forall k :: 0 <= k < |items| ==> items[k].fileId in rows
    ensures CountVerified(items, Requeued(rows), n) == CountVerified(items, rows, n)
    ensures CountFailed(items, Requeued(rows), n) == CountFailed(items, rows, n)
  {
    if n > 0 { RequeuingKeepsCounts(items, rows, n - 1); }
  }

  /** What one item's step comes to for the run. */
  lemma RunStep(
    mode: Mode, who: Parties, a: World, b: World, c: World, items: seq<Row>, ids: set<string>, i: nat, verified: nat,
    failed: nat, step: StepResult)
    requires Slice(items, ids, a.rows) && i < |items| && RunAt(mode, who, a, b, items, ids, i, verified, failed)
    requires Within(mode, b, c, items[i].fileId, 70, 759) && c.retried == b.retried
    requires NewlyVerified(items[i], c.rows[items[i].fileId]) ==>
               |c.calls| > |b.calls| && Confirms(c.calls[|c.calls| - 1], items[i], who)
    requires EndsAs(step, c.rows[items[i].fileId])
    requires Deserved(step, items[i], c.rows[items[i].fileId], b, c, who)
    requires mode == Reliable && AllAcceptable(items, a.remote, who) ==> step == Done(Verified)
    ensures StepsOn(mode, who, a, c, items, ids, i, AfterStep(step, verified, failed))
  {
    ProgressStep(mode, who, a, b, c, items, ids, i);
    if step.Done? || step.Failed? {
      CountsStand(items, b.rows, c.rows, i);
      ProgressSettles(mode, who, a, c, items, ids, i);
      ItemCounted(items, c.rows, i, verified, failed, step);
    }
  }

  lemma ItemCounted(items: seq<Row>, rows: map<string, Row>, i: nat, verified: nat, failed: nat, step: StepResult)
    requires i < |items| && forall k :: 0 <= k < |items| ==> items[k].fileId in rows
    requires Counted(items, rows, i, verified, failed) && EndsAs(step, rows[items[i].fileId])
    requires step.Done? || step.Failed?
    ensures
      var s := AfterStep(step, verified, failed);
      s.GoesOn? && Counted(items, rows, i + 1, s.verified, s.failed)
  {
  }

  lemma RowsStep(
    a: map<string, Row>, b: map<string, Row>, c: map<string, Row>, items: seq<Row>, ids: set<string>, i: nat)
    requires Slice(items, ids, a) && i < |items| && RowsProgress(a, b, items, ids, i)
    requires OnlyRow(b, c, items[i].fileId)
    ensures RowsProgress(a, c, items, ids, i + 1)
    ensures forall k :: 0 <= k < |items| && k != i ==> c[items[k].fileId] == b[items[k].fileId]
  {
    SameElsewhere(b, c, items[i].fileId);
    assert items[i].fileId in ids;
  }

  lemma CallsStep(
    a: map<string, Row>, b: map<string, Row>, x: seq<Call>, y: seq<Call>, z: seq<Call>, items: seq<Row>,
    ids: set<string>, i: nat)
    requires i < |items| && RowsProgress(a, b, items, ids, i)
    requires CallsProgress(a, x, y, ids) && CallsOn(b, y, z, items[i].fileId, 70)
    requires Slice(items, ids, a)
    ensures CallsProgress(a, x, z, ids)
  {
    var id := items[i].fileId;
    assert items[i].fileId in ids;
    forall k | |x| <= k < |z| ensures CallAmong(z[k], a, ids) {
      if k < |y| {
        assert z[k] == y[k];
      } else {
        assert z[k].others == b - {id};
      }
    }
  }

  lemma EvidenceStep(
    b: map<string, Row>, c: map<string, Row>, a: nat, y: seq<Call>, z: seq<Call>, items: seq<Row>, i: nat, who: Parties)
    requires i < |items| && forall k :: 0 <= k < |items| ==> items[k].fileId in b && items[k].fileId in c
    requires EvidenceProgress(b, a, y, items, i, who) && a <= |y| && y <= z
    requires forall k :: 0 <= k < i ==> c[items[k].fileId] == b[items[k].fileId]
    requires NewlyVerified(items[i], c[items[i].fileId]) ==> |z| > |y| && Confirms(z[|z| - 1], items[i], who)
    ensures EvidenceProgress(c, a, z, items, i + 1, who)
  {
    forall k | 0 <= k < i + 1 && NewlyVerified(items[k], c[items[k].fileId]) ensures Evidence(a, z, items[k], who) {
      if k < i {
        var j :| a <= j < |y| && Confirms(y[j], items[k], who);
        assert z[j] == y[j];
      }
    }
  }

  lemma FilesStep(
    a: map<string, Snapshot>, b: map<string, Snapshot>, c: map<string, Snapshot>, items: seq<Row>,
    ids: set<string>, i: nat)
    requires i < |items| && FilesProgress(a, b, items, ids, i) && OnlyFile(b, c, items[i].fileId)
    requires items[i].fileId in ids
    requires forall j, k :: 0 <= j < k < |items| ==> items[j].fileId != items[k].fileId
    ensures FilesProgress(a, c, items, ids, i + 1)
  {
    forall id | id in a && id !in ids ensures c[id] == a[id] {
      assert (c - {items[i].fileId})[id] == (b - {items[i].fileId})[id];
    }
    forall k | i < k < |items| && items[k].fileId in a
      ensures c[items[k].fileId] == a[items[k].fileId]
    {
      assert (c - {items[i].fileId})[items[k].fileId] == (b - {items[i].fileId})[items[k].fileId];
    }
  }


  /** What a look means, given the last call made and what is saved. */
  predicate Shows(sight: Sight, item: Row, out: Row, rows: map<string, Row>, last: Call, who: Parties) {
    match sight
    case Confirmed => out == item && Saved(item, rows) && Confirms(last, item, who)
    case NotYet =>
      out == item && Saved(item, rows) && last.answer.File? && VerdictOn(last, who) == EndsIn(RetryableFailed)
    case Trashed =>
      && Saved(out, rows) && out.state.SkippedTrashed? && out.lastError.None? && SameItem(item, out)
      && VerdictOn(last, who) == EndsIn(SkippedTrashed)
    case Ends(o) =>
      if o.StoreFailed? then SameItem(item, out) else out == item && Saved(item, rows) && !o.InvalidState?
  }

  /** What is saved for an item when its step ends so. */
  predicate EndsAs(r: StepResult, row: Row) {
    match r
    case Done(state) => row.state == state && (state.Verified? || state.IsSkipped()) && row.lastError.None?
    case Failed => (row.state.RetryableFailed? || row.state.PermanentFailed?) && row.lastError.Some?
    case Halted(_) => row.state.IsTransferActive() && row.lastError.Some?
    case Fatal => true
  }

  /** How giving up an item's step for this reason ends. */
  predicate GivenUpAs(a: World, b: World, item: Row, o: StepOutcome, r: StepResult) {
    && item.fileId in b.rows && !r.Done? && EndsAs(r, b.rows[item.fileId])
    && (o.StoreFailed? || o.InvalidState? ==> r.Fatal? && b.rows == a.rows)
    && (r.Fatal? ==> o.StoreFailed? || o.InvalidState? || b.faults > a.faults)
    && (r.Halted? ==>
          o.Halting? && r.trouble == o.trouble && b.rows[item.fileId] == item.(lastError := Some(o.details)))
    && (r.Failed? ==>
          && (o.Permanent? || o.Retryable?)
          && b.rows[item.fileId] ==
               item.(state := if o.Permanent? then PermanentFailed else RetryableFailed, lastError := Some(o.details)))
  }

  /** A step given up for a reason that arose since `a` ends as it deserves. */
  lemma GivenUpDeserves(
    a: World, b: World, c: World, item: Row, out: Row, o: StepOutcome, r: StepResult, who: Parties)
    requires Blames(o, a, b, who) || (o.Permanent? && LacksPermission(a, b, item))
    requires GivenUpAs(b, c, out, o, r) && out.fileId == item.fileId
    requires c.calls == b.calls && b.slept == c.slept && a.faults <= b.faults <= c.faults
    requires o.InvalidState? ==> item.state.PendingOwnerCreated?
    ensures Deserved(r, item, c.rows[item.fileId], a, c, who)
  {
  }

  /** A step whose last call was answered with a fault ends as that fault says: a busy or unreachable Drive, or a file
      the target does not see, only after seven calls and with the item left for later; any other fault of the file at
      once and for good; a refused token, a sharing limit or a full quota stops the job. */
  lemma LastAnswerDecides(r: StepResult, item: Row, row: Row, a: World, b: World, who: Parties)
    requires Deserved(r, item, row, a, b, who) && EndsAs(r, row) && !r.Fatal?
    requires |b.calls| > |a.calls| && b.calls[|b.calls| - 1].answer.Fault?
    ensures
      var op, error := b.calls[|b.calls| - 1].op, b.calls[|b.calls| - 1].answer.error;
      && row.lastError == Some(OfDrive(error))
      && (error.RateLimited? || error.ServerUnavailable? || error.Transport?
          || (error.NotFound? && (op.AcceptOwnership? || op == GetFile(Target))) ==>
            r.Failed? && row.state.RetryableFailed? && RepeatedInVain(b.calls) && b.slept >= a.slept + 63)
      && (error.Forbidden? || error.InvalidResponse? || error.UnexpectedStatus?
          || (error.NotFound? && !op.AcceptOwnership? && op != GetFile(Target)) ==>
            r.Failed? && row.state.PermanentFailed?)
      && (error.SharingRateLimitExceeded? ==> r == Halted(SharingRateLimited))
      && (error.StorageQuotaExceeded? ==> r == Halted(WaitingForQuota))
      && (error.Unauthorized? ==> r == Halted(AuthRequired(TokenOf(op))))
  {
  }

  lemma DeservedLater(
    a: World, b: World, c: World, item: Row, out: Row, row: Row, r: StepResult, who: Parties)
    requires Deserved(r, out, row, b, c, who) && !out.state.PendingOwnerCreated?
    requires r.Failed? ==> !LacksPermission(b, c, out)
    requires |a.calls| <= |b.calls| && a.slept <= b.slept && a.faults <= b.faults
    ensures Deserved(r, item, row, a, c, who)
  {
  }

  /** An item that only verification is left of, or whose step has ended, not with verification. */
  predicate Brought(a: World, b: World, item: Row, ended: Option<StepResult>, out: Row, who: Parties) {
    && SameItem(item, out) && item.fileId in b.rows
    && (if ended.None? then
          Saved(out, b.rows) && (out.state.Transferred? || out.state.Verifying?)
        else
          && EndsAs(ended.value, b.rows[item.fileId]) && ended.value != Done(Verified)
          && Deserved(ended.value, item, b.rows[item.fileId], a, b, who))
  }

  /** An item brought further by a later phase of its step. */
  lemma BroughtLater(
    a: World, b: World, c: World, item: Row, ready: Row, ended: Option<StepResult>, out: Row, who: Parties)
    requires Brought(b, c, ready, ended, out, who) && SameItem(item, ready)
    requires ready.targetPermission.Some? && !ready.state.PendingOwnerCreated?
    requires |a.calls| <= |b.calls| && a.slept <= b.slept && a.faults <= b.faults
    ensures Brought(a, c, item, ended, out, who)
  {
    if ended.Some? { DeservedLater(a, b, c, item, ready, c.rows[item.fileId], ended.value, who); }
  }

  /** How verification ends: confirmed or trashed and saved so, or with a failure. */
  ghost predicate Checked(
    mode: Mode, who: Parties, a: World, b: World, item: Row, failure: Option<StepOutcome>, out: Row)
  {
    && SameItem(item, out)
    && (failure.None? ==>
          && Saved(out, b.rows) && (out.state.Verifying? || (out.state.SkippedTrashed? && out.lastError.None?))
          && |b.calls| > |a.calls|
          && VerdictOn(b.calls[|b.calls| - 1], who) == EndsIn(if out.state.Verifying? then Verified else out.state)
          && (out.state.Verifying? ==> |b.calls| > |a.calls| && Confirms(b.calls[|b.calls| - 1], item, who)))
    && (failure.Some? ==>
          && Blames(failure.value, a, b, who)
          && (!failure.value.StoreFailed? ==>
              Saved(out, b.rows) && out.state.Verifying? && !failure.value.InvalidState?))
    && (mode == Reliable ==> failure.None? && out.state.Verifying?)
  }

  lemma NotSavedAsVerifying(
    mode: Mode, who: Parties, a: World, b: World, item: Row, p: Prepared, out: Row)
    requires (item.state.Transferred? || item.state.Verifying?) && SameItem(item, out) && p.Stop?
    requires if item.state.CanTransitionTo(Verifying) then mode != Reliable && p.outcome.StoreFailed?
             else p.outcome.InvalidState?
    requires p.outcome.StoreFailed? ==> b.faults > a.faults
    ensures Checked(mode, who, a, b, item, Some(p.outcome), out)
  {
  }

  lemma SightChecks(
    mode: Mode, who: Parties, a: World, b: World, c: World, item: Row, verifying: Row, sight: Sight, out: Row)
    requires SameItem(item, verifying) && verifying.state.Verifying?
    requires b.calls == a.calls && |c.calls| > |b.calls| && !sight.NotYet? && (mode == Reliable ==> sight.Confirmed?)
    requires Shows(sight, verifying, out, c.rows, c.calls[|c.calls| - 1], who)
    requires c.calls[|c.calls| - 1].saved == verifying && a.slept <= b.slept && a.faults <= b.faults
    requires sight.Ends? ==> Blames(sight.failure, b, c, who)
    ensures Checked(mode, who, a, c, item, if sight.Ends? then Some(sight.failure) else None, out)
  {
  }

  /** How the looks at a transfer end: shown complete, in the trash, or given up. */
  ghost predicate LooksEnd(mode: Mode, who: Parties, a: World, b: World, item: Row, sight: Sight, out: Row) {
    && Touched(mode, a, b, item.fileId, 49, 552)
    && |b.calls| > |a.calls| && b.calls[|b.calls| - 1].saved == item
    && Shows(sight, item, out, b.rows, b.calls[|b.calls| - 1], who)
    && (sight.Ends? ==> Blames(sight.failure, a, b, who))
    && !sight.NotYet? && (mode == Reliable ==> sight.Confirmed?)
  }

  /** After the seventh look, or one that was no maybe, the looking ends. */
  lemma LookingEnds(
    mode: Mode, who: Parties, a: World, b: World, c: World, item: Row, attempt: nat, last: Sight, sight: Sight,
    out: Row)
    requires attempt <= MAX_RETRY_ATTEMPTS && LookedFor(mode, a, b, item.fileId, attempt)
    requires Touched(mode, a, c, item.fileId, 49, 552) && b.slept <= c.slept && b.faults <= c.faults
    requires |c.calls| > |b.calls| && c.calls[|c.calls| - 1].saved == item
    requires Shows(last, item, out, c.rows, c.calls[|c.calls| - 1], who)
    requires last.Ends? ==> Blames(last.failure, b, c, who)
    requires if last.NotYet? then attempt == MAX_RETRY_ATTEMPTS && sight.Ends? && sight.failure.Retryable?
                 && sight.failure.details.OfReason?
             else sight == last
    requires mode == Reliable ==> last.Confirmed?
    ensures LooksEnd(mode, who, a, c, item, sight, out)
  {
  }

  /** Reading the store after an item's step either goes well or ends the run in an error. */
  lemma StoreWasRead(
    mode: Mode, who: Parties, a: World, b: World, c: World, items: seq<Row>, ids: set<string>, i: nat, s: Stepped,
    ok: bool)
    requires StepsOn(mode, who, a, b, items, ids, i, s) && s.GoesOn?
    requires c == b.(faults := if ok then b.faults else b.faults + 1)
    ensures StepsOn(mode, who, a, c, items, ids, i, if ok then s else StopsWith(None))
  {
  }

  predicate IsStop(r: Option<Halt>) {
    r == Some(PauseRequested) || r == Some(CancelRequested)
  }

  /** A run stops for a request only if there was one. */
  predicate WasAsked(r: Option<Halt>, pause: bool, cancel: bool) {
    (r == Some(PauseRequested) ==> pause && !cancel) && (r == Some(CancelRequested) ==> cancel)
  }

  /** A run that ended between two items. */
  predicate Between(r: Option<Halt>) {
    r.Some? && (r.value.Exhausted? || r.value.PauseRequested? || r.value.CancelRequested?)
  }

  /** No item is saved as accepting while the target already owns its file. */
  ghost predicate AllAcceptable(items: seq<Row>, remote: map<string, Snapshot>, who: Parties) {
    forall k :: 0 <= k < |items| ==>
      items[k].fileId in remote && Acceptable(items[k], remote[items[k].fileId], who)
  }

  /** The decision a snapshot calls for. */
  predicate ActionFits(s: Snapshot, who: Parties, action: PrepareAction) {
    match action
    case Finished(state) =>
      (state.SkippedTrashed? && s.trashed) || (state.SkippedSharedDrive? && !s.trashed && s.driveId.Some?)
    case VerifyOnly => !s.trashed && s.driveId.None? && who.target in s.owners && who.source !in s.owners
    case AcceptWith(_) => !s.trashed && s.driveId.None? && who.source in s.owners
  }

  /** The pending-owner request a snapshot calls for: an existing permission is updated, never duplicated. */
  predicate RequestFits(s: Snapshot, who: Parties, op: Op) {
    && !s.trashed && s.driveId.None? && who.source in s.owners
    && PermissionFits(s, who, op)
  }

  predicate PermissionFits(s: Snapshot, who: Parties, op: Op) {
    match FindTargetPermission(s.permissions, who)
    case None => op.CreatePendingOwner?
    case Some(p) => op == UpdatePendingOwner(p.id) && !p.pendingOwner && !EqIgnoreAsciiCase(p.role, "owner")
  }

  /** While the source owns a file, a target permission good enough to accept is a pending one. */
  lemma FoundIsPending(s: Snapshot, who: Parties, parents: seq<string>, p: Permission)
    requires Sane(s, who, parents) && s.owners == [who.source]
    requires FindTargetPermission(s.permissions, who) == Some(p)
    requires p.pendingOwner || EqIgnoreAsciiCase(p.role, "owner")
    ensures PendingAt(s, who, p.id)
  {
    FindTargetPermissionMeaning(s.permissions, who);
  }

  /** How preparing an item ends, and what is saved by then. */
  predicate Prepares(item: Row, p: Prepared, out: Row, rows: map<string, Row>) {
    && SameItem(item, out)
    && match p
       case Go(Finished(state)) =>
         Saved(out, rows) && out.state == state && (state.SkippedTrashed? || state.SkippedSharedDrive?)
         && out.lastError.None?
       case Go(VerifyOnly) => Saved(out, rows) && out.state.Verifying?
       case Go(AcceptWith(id)) =>
         Saved(out, rows) && (out.state.AcceptRequired? || out.state.Accepting?) && out.targetPermission == Some(id)
       case Stop(o) =>
         && (!o.StoreFailed? && !o.InvalidState? ==> Held(out, rows) && out.state.IsTransferActive())
         && (o.InvalidState? ==> item.state.PendingOwnerCreated?)
  }

  predicate BeforeAcceptance(state: ItemState) {
    state.Eligible? || state.RetryableFailed? || state.PendingOwnerRequired? || state.PendingOwnerCreated?
  }

  predicate Saved(item: Row, rows: map<string, Row>) {
    item.fileId in rows && rows[item.fileId] == item
  }

  /** The row is as it was, but for a retry request that may have reset it. */
  predicate Stands(before: Row, after: Row) {
    after == before || after == RequeuedRow(before)
  }

  /** The item as a run has it in hand: saved so, but for a retry request since it was read. */
  predicate Held(item: Row, rows: map<string, Row>) {
    item.fileId in rows && Stands(item, rows[item.fileId])
  }

  lemma HeldIsLinked(item: Row, rows: map<string, Row>, s: Snapshot, who: Parties)
    requires Held(item, rows) && Linked(rows[item.fileId], s, who)
    ensures Linked(item, s, who)
  {
  }

  lemma FailureIsMoved(item: Row, state: ItemState)
    requires item.state.IsTransferActive() && (state.RetryableFailed? || state.PermanentFailed?)
    ensures Moved(item, state) == Some(item.(state := state))
  {
  }

  lemma FailureIsLinked(item: Row, failed: Row, rows: map<string, Row>, s: Snapshot, who: Parties)
    requires Held(item, rows) && item.state.IsTransferActive() && Linked(rows[item.fileId], s, who)
    requires IsFailed(failed) && failed.parents == item.parents
    ensures Linked(failed, s, who)
  {
  }

  /** Outside a set of files two tables have the same rows, but for retry requests. */
  predicate AlikeOutside(a: map<string, Row>, b: map<string, Row>, ids: set<string>) {
    && a.Keys - ids == b.Keys - ids
    && forall id :: id in a && id !in ids ==> id in b && Stands(a[id], b[id])
  }

  /** How asking for pending ownership ends. */
  ghost predicate Requested(mode: Mode, who: Parties, a: World, b: World, item: Row, op: Op, p: Prepared, out: Row) {
    && Prepares(item, p, out, b.rows)
    && (p.Go? ==> p.action.AcceptWith?)
    && (p.Stop? ==> Blames(p.outcome, a, b, who))
    && (forall k :: |a.calls| <= k < |b.calls| ==> b.calls[k].op == op)
    && (mode == Reliable && item.fileId in a.remote && Willing(a.remote[item.fileId], who, op) ==>
          p.Go? && item.fileId in b.remote && b.remote[item.fileId].owners == [who.source])
  }

  /** How acting on what the source's token showed ends. */
  ghost predicate Readied(mode: Mode, who: Parties, a: World, b: World, item: Row, s: Snapshot, p: Prepared, out: Row) {
    && Prepares(item, p, out, b.rows)
    && (if p.Go? then ActionFits(s, who, p.action)
        else Blames(p.outcome, a, b, who) || GivesUp(a, b, who, s, p.outcome))
    && (p.Go? && p.action.Finished? ==> b.calls == a.calls)
    && (forall k :: |a.calls| <= k < |b.calls| ==> RequestFits(s, who, b.calls[k].op))
    && (mode == Reliable ==>
          && p.Go? && !p.action.Finished?
          && (p.action.AcceptWith? ==> item.fileId in b.remote && b.remote[item.fileId].owners == [who.source]))
  }

  /** Nothing can be asked for, as neither account owns the file. */
  predicate GivesUp(a: World, b: World, who: Parties, s: Snapshot, o: StepOutcome) {
    && o.Permanent? && o.details.OfReason? && b.calls == a.calls
    && !s.trashed && s.driveId.None? && NeitherOwns(s, who)
  }

  /** How preparing an item ends, in the light of the calls since `a`. */
  predicate PreparedBy(a: World, b: World, who: Parties, item: Row, p: Prepared) {
    match p
    case Stop(o) => Blames(o, a, b, who) || (o.Permanent? && LacksPermission(a, b, item))
    case Go(Finished(state)) => |b.calls| > |a.calls| && VerdictOn(b.calls[|b.calls| - 1], who) == EndsIn(state)
    case Go(_) => true
  }

  /** What was done about an item after it was read follows from that read, or from a later call. */
  lemma ReadPrepares(
    mode: Mode, who: Parties, a: World, b: World, c: World, item: Row, s: Snapshot, p: Prepared, out: Row)
    requires Readied(mode, who, b, c, item, s, p, out) && b.calls <= c.calls
    requires |a.calls| < |b.calls| && a.slept <= b.slept && a.faults <= b.faults
    requires b.calls[|b.calls| - 1].answer == File(s) && b.calls[|b.calls| - 1].op == GetFile(Source)
    ensures PreparedBy(a, c, who, item, p)
  {
  }

  /** An item whose owner is pending already may not be asked for again. */
  lemma MayNotAsk(mode: Mode, who: Parties, a: World, item: Row, op: Op)
    requires BeforeAcceptance(item.state) && !item.state.CanTransitionTo(PendingOwnerRequired)
    requires mode != Arbitrary ==> item.fileId in a.remote && Linked(item, a.remote[item.fileId], who)
    ensures Requested(mode, who, a, a, item, op, Stop(InvalidState), item)
  {
  }

  lemma NotGranted(
    mode: Mode, who: Parties, a: World, b: World, item: Row, op: Op, r: Answered, out: Row)
    requires AskedUnder(mode, who, a, b, out, op, r) && r.Err? && out == item.(state := PendingOwnerRequired)
    requires mode != Arbitrary ==> item.fileId in a.remote
    ensures Requested(mode, who, a, b, item, op, Stop(r.outcome), out)
  {
  }

  /** Once the permission is pending, the item may be saved as ready to accept under it. */
  lemma GrantLinks(mode: Mode, who: Parties, a: World, b: World, sent: Row, op: Op, r: Answered)
    requires mode != Arbitrary && AskedUnder(mode, who, a, b, sent, op, r) && r.Ok?
    requires op.CreatePendingOwner? || op.UpdatePendingOwner?
    requires sent.state.PendingOwnerRequired? && sent.fileId in b.remote && Linked(sent, b.remote[sent.fileId], who)
    ensures r.answer.Granted?
    ensures Linked(sent.(state := AcceptRequired, targetPermission := Some(r.answer.permission.id)),
                   b.remote[sent.fileId], who)
  {
  }

  lemma GrantRecorded(
    mode: Mode, who: Parties, a: World, b: World, c: World, item: Row, sent: Row, op: Op, r: Answered, p: Prepared,
    out: Row)
    requires AskedUnder(mode, who, a, b, sent, op, r) && r.Ok? && sent == item.(state := PendingOwnerRequired)
    requires op.CreatePendingOwner? || op.UpdatePendingOwner?
    requires c.calls == b.calls && c.remote == b.remote
    requires Prepares(sent, p, out, c.rows) && (p.Go? ==> p.action.AcceptWith?) && (mode == Reliable ==> p.Go?)
    requires p.Stop? ==> Blames(p.outcome, b, c, who)
    requires |a.calls| <= |b.calls| && a.slept <= b.slept && a.faults <= b.faults
    ensures Requested(mode, who, a, c, item, op, p, out)
  {
  }

  /** The item with the permission just noted is still that item. */
  lemma RequestReadies(
    mode: Mode, who: Parties, a: World, b: World, item: Row, noted: Row, s: Snapshot, op: Op, p: Prepared, out: Row)
    requires Requested(mode, who, a, b, noted, op, p, out)
    requires SameItem(item, noted) && item.state == noted.state && PermissionFits(s, who, op)
    requires !s.trashed && s.driveId.None? && who.source in s.owners
    requires mode != Arbitrary ==> item.fileId in a.remote && a.remote[item.fileId] == s && s.owners == [who.source]
    requires mode == Reliable ==> Willing(s, who, op)
    ensures Readied(mode, who, a, b, item, s, p, out)
  {
  }

  lemma PermissionRecorded(
    mode: Mode, who: Parties, a: World, b: World, item: Row, noted: Row, s: Snapshot, p: Prepared, out: Row)
    requires b.calls == a.calls && b.remote == a.remote
    requires Prepares(noted, p, out, b.rows) && (p.Go? ==> p.action.AcceptWith?) && (mode == Reliable ==> p.Go?)
    requires p.Stop? ==> Blames(p.outcome, a, b, who)
    requires SameItem(item, noted) && item.state == noted.state
    requires !s.trashed && s.driveId.None? && who.source in s.owners
    requires mode != Arbitrary ==> item.fileId in a.remote && a.remote[item.fileId] == s && s.owners == [who.source]
    ensures Readied(mode, who, a, b, item, s, p, out)
  {
  }

  /** What Drive does with a call: `effect` when it carries the call out, `reported` when the answer also arrives. */
  method Outcome(
    who: Parties, mode: Mode, row: Row, before: Snapshot, op: Op, newId: string, error: DriveError, effect: bool,
    reported: bool) returns (after: Snapshot, a: Answer)
    requires Linked(row, before, who) && MayCall(row, op) && FreshId(before, who, newId)
    requires mode == Reliable ==> effect && reported
    ensures Linked(row, after, who) && AnswerFits(op, a)
    ensures Follows(who, mode, before, op, after, a)
  {
    match Effect(before, who, op, newId)
    case None =>
      WillingMeansEffect(before, who, op, newId);
      return before, Fault(error);
    case Some((carriedOut, answer)) =>
      EffectKeepsLinked(row, before, who, op, newId);
      after := if effect then carriedOut else before;
      a := if effect && reported then answer else Fault(error);
      assert a.Fault? || TookEffect(before, who, op, newId, after, a);
  }

  method AnyString() returns (s: string) {
    s := *;
  }

  function UnusedId(permissions: seq<Permission>): string {
    if permissions == [] then "x" else permissions[0].id + UnusedId(permissions[1..])
  }

  lemma {:induction false} UnusedIdIsFresh(permissions: seq<Permission>)
    ensures forall p :: p in permissions ==> |p.id| < |UnusedId(permissions)|
    ensures |UnusedId(permissions)| > 0
  {
    if permissions != [] {
      UnusedIdIsFresh(permissions[1..]);
      assert permissions == [permissions[0]] + permissions[1..];
    }
  }

  /** No call that takes effect breaks the link between the file and the row under which it was made. */
  lemma EffectKeepsLinked(row: Row, s: Snapshot, who: Parties, op: Op, newId: string)
    requires Linked(row, s, who) && FreshId(s, who, newId)
    requires MayCall(row, op)
    requires Effect(s, who, op, newId).Some?
    ensures Linked(row, Effect(s, who, op, newId).value.0, who)
    ensures op.CreatePendingOwner? || op.UpdatePendingOwner? ==>
              Effect(s, who, op, newId).value.0.owners == [who.source]
  {
    match op
    case GetFile(_) =>
    case AcceptOwnership(id) => AcceptKeepsSane(s, who, row.parents, id);
    case _ => GrantKeepsSane(s, who, row.parents, op, newId);
  }
}
