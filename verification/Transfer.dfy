/** Moving items: reconcile, pending owner, accept, verify, each step saved before the next call.
    A save that reports an error may have taken effect, which is also what a crash leaves behind. */
module Transfer {
  import opened Items
  import opened DriveModel
  import opened Backoff
  import opened TransferModel

  class TransferRun {
    const who: Parties
    const mode: Mode
    var rows: map<string, Row>
    var remote: map<string, Snapshot>
    ghost var calls: seq<Call>
    ghost var slept: nat
    ghost var retried: seq<Retried>

    /** The requests to stop that other tasks have made; a run only reads them. */
    var pause: bool
    var cancel: bool

    /** How often the store has reported an error. */
    ghost var faults: nat

    ghost predicate Valid()
      reads this
    {
      Keyed(rows) && (mode != Arbitrary ==> Truthful(who, rows, remote)) && AcceptsFollowRows(calls)
    }

    ghost function Now(): World
      reads this
    {
      World(rows, remote, calls, slept, retried, faults)
    }

    /** A run over what is saved, with Drive as it stands. */
    constructor (who: Parties, mode: Mode, rows: map<string, Row>, remote: map<string, Snapshot>)
      requires Keyed(rows)
      requires mode != Arbitrary ==> Truthful(who, rows, remote)
      ensures Valid()
      ensures this.who == who && this.mode == mode && this.rows == rows && this.remote == remote
      ensures calls == [] && slept == 0 && retried == [] && faults == 0 && !pause && !cancel
    {
      this.pause, this.cancel := false, false;
      this.who, this.mode, this.rows, this.remote := who, mode, rows, remote;
      calls, slept, retried, faults := [], 0, [], 0;
    }

    /** Write one row. A write that reports an error may have happened. */
    method StoreItem(item: Row) returns (ok: bool)
      requires Valid() && item.fileId in rows && item.parents == rows[item.fileId].parents && !item.state.Discovered?
      requires mode != Arbitrary ==> Linked(item, remote[item.fileId], who)
      modifies `faults, `rows
      ensures Valid()
      ensures ok ==> rows == old(rows)[item.fileId := item]
      ensures !ok ==> mode != Reliable && (rows == old(rows) || rows == old(rows)[item.fileId := item])
      ensures faults == if ok then old(faults) else old(faults) + 1
    {
      var aborted: bool, reported: bool := *, *;
      if mode == Reliable { aborted, reported := false, true; }
      ok := !aborted && reported;
      if !ok { faults := faults + 1; }
      if !aborted { rows := rows[item.fileId := item]; }
    }

    /** Write the row a transfer step has worked on. */
    method SaveItem(item: Row) returns (ok: bool)
      requires Valid() && item.fileId in rows && SameItem(item, rows[item.fileId]) && !item.state.Discovered?
      requires mode != Arbitrary ==> Linked(item, remote[item.fileId], who)
      modifies `faults, `rows
      ensures Valid()
      ensures Within(mode, old(Now()), Now(), item.fileId, 0, 0)
      ensures !item.state.Verified? ==> Touched(mode, old(Now()), Now(), item.fileId, 0, 0)
      ensures ok ==> rows == old(rows)[item.fileId := item]
      ensures !ok ==> mode != Reliable && (rows == old(rows) || rows == old(rows)[item.fileId := item])
      ensures faults == if ok then old(faults) else old(faults) + 1
    {
      assert rows[item.fileId := item] - {item.fileId} == rows - {item.fileId};
      ok := StoreItem(item);
    }

    /** One Drive call about a file, under the row saved for it. */
    method Perform(id: string, op: Op) returns (a: Answer)
      requires Valid() && id in rows && MayCall(rows[id], op)
      modifies `remote, `calls
      ensures Valid()
      ensures calls == old(calls) + [Call(id, op, a, rows[id], rows - {id})]
      ensures AnswerFits(op, a)
      ensures mode != Arbitrary ==>
                && OnlyFile(old(remote), remote, id)
                && Follows(who, mode, old(remote)[id], op, remote[id], a)
    {
      if mode == Arbitrary {
        a := *;
        if !AnswerFits(op, a) { a := Fault(Transport); }
      } else {
        a := CarryOut(id, op);
      }
      calls := calls + [Call(id, op, a, rows[id], rows - {id})];
    }

    method CarryOut(id: string, op: Op) returns (a: Answer)
      requires Valid() && id in rows && mode != Arbitrary && MayCall(rows[id], op)
      modifies `remote
      ensures Valid() && AnswerFits(op, a)
      ensures OnlyFile(old(remote), remote, id)
      ensures Follows(who, mode, old(remote)[id], op, remote[id], a)
    {
      var newId := AnyString();
      if !FreshId(remote[id], who, newId) { newId := UnusedId(remote[id].permissions); }
      UnusedIdIsFresh(remote[id].permissions);
      var error: DriveError := *;
      var effect: bool, reported: bool := *, *;
      if mode == Reliable { effect, reported := true, true; }
      var after;
      after, a := Outcome(who, mode, rows[id], remote[id], op, newId, error, effect, reported);
      assert remote[id := after] - {id} == remote - {id};
      remote := remote[id := after];
    }

    method Sleep(attempt: nat)
      requires attempt < MAX_RETRY_ATTEMPTS
      modifies `slept
      ensures Naps(old(Now()), Now(), attempt)
    {
      var late: bool := *;
      var jitter := if late then 1 else 0;
      JitterAddsAtMostOne(attempt, jitter);
      SleepTable(attempt);
      LeastSleepTable(attempt);
      slept := slept + BackoffDelay(attempt, jitter);
    }

    /** One attempt of a phase of calls that began at `start` and has had only faults since. */
    method Attempt(phase: Phase, id: string, op: Op, ghost start: map<string, Snapshot>) returns (r: Answered)
      requires Valid() && id in rows && MayCall(rows[id], op)
      requires mode != Arbitrary ==> PhaseFrom(who, start, id, op, remote, Err(StoreFailed))
      modifies `remote, `calls
      ensures Valid() && SameCalls(old(Now()), Now(), id, op, 1)
      ensures Reports(phase, op, calls[|calls| - 1].answer, MAX_RETRY_ATTEMPTS + 1, r)
      ensures mode != Arbitrary ==> PhaseFrom(who, start, id, op, remote, r)
      ensures mode == Reliable && r.Err? ==> remote == old(remote) && !Willing(remote[id], who, op)
    {
      ghost var mid := remote;
      var a := Perform(id, op);
      if mode != Arbitrary { PhaseContinues(who, mode, rows[id], start, mid, op, remote, a); }
      r := if a.Fault? then Err(Classify(a.error, phase)) else Ok(a);
    }

    /** Ask once more, and sleep if that was a fault worth repeating and the seventh call has not been made. */
    method AskAgain(phase: Phase, id: string, op: Op, made: nat, ghost start: World) returns (r: Answered, ended: bool)
      requires Valid() && id in rows && MayCall(rows[id], op) && PhaseRole(phase) == TokenOf(op)
      requires made <= MAX_RETRY_ATTEMPTS && Tried(mode, who, start, Now(), id, op, made)
      modifies `remote, `calls, `slept
      ensures Valid()
      ensures ended ==>
                && Asked(mode, who, start, Now(), id, op, made, r)
                && calls != [] && Reports(phase, op, calls[|calls| - 1].answer, MAX_RETRY_ATTEMPTS + 1, r)
                && (r.Err? && r.outcome.Retryable? ==> made == MAX_RETRY_ATTEMPTS)
      ensures !ended ==> made < MAX_RETRY_ATTEMPTS && Tried(mode, who, start, Now(), id, op, made + 1)
    {
      ghost var before := Now();
      r := Attempt(phase, id, op, start.remote);
      ghost var asked := Now();
      AttemptMade(mode, who, start, before, asked, id, op, made, r);
      ended := r.Ok? || !r.outcome.Retryable? || made >= MAX_RETRY_ATTEMPTS;
      if !ended {
        ClassifiedByVerdict(calls[|calls| - 1], phase);
        Sleep(made);
        AskedInVain(mode, who, start, asked, Now(), id, op, made, r);
      }
    }

    /** Ask until an answer is no fault worth repeating, at most seven times. */
    method KeepAsking(phase: Phase, id: string, op: Op) returns (r: Answered, ghost attempt: nat)
      requires Valid() && id in rows && MayCall(rows[id], op) && PhaseRole(phase) == TokenOf(op)
      modifies `remote, `calls, `slept
      ensures Valid() && attempt <= MAX_RETRY_ATTEMPTS && Asked(mode, who, old(Now()), Now(), id, op, attempt, r)
      ensures calls != [] && Reports(phase, op, calls[|calls| - 1].answer, MAX_RETRY_ATTEMPTS + 1, r)
      ensures r.Err? && r.outcome.Retryable? ==> attempt == MAX_RETRY_ATTEMPTS
    {
      ghost var start := Now();
      var made := 0;
      NothingTriedYet(mode, who, start, id, op);
      while true
        invariant made <= MAX_RETRY_ATTEMPTS
        invariant Valid() && Tried(mode, who, start, Now(), id, op, made)
        decreases MAX_RETRY_ATTEMPTS - made
      {
        var ended;
        r, ended := AskAgain(phase, id, op, made, start);
        if ended { return r, made; }
        made := made + 1;
      }
    }

    /** What a bounded retry comes to. */
    method Retry(phase: Phase, id: string, op: Op) returns (r: Answered)
      requires Valid() && id in rows && MayCall(rows[id], op) && PhaseRole(phase) == TokenOf(op)
      modifies `remote, `calls, `slept
      ensures Valid() && Touched(mode, old(Now()), Now(), id, MAX_RETRY_ATTEMPTS + 1, 69)
      ensures SameCalls(old(Now()), Now(), id, op, |calls| - |old(calls)|)
      ensures DroveTo(mode, who, old(Now()), Now(), id, op, r)
      ensures |old(calls)| < |calls| <= |old(calls)| + MAX_RETRY_ATTEMPTS + 1
      ensures Reports(phase, op, calls[|calls| - 1].answer, |calls| - |old(calls)|, r)
      ensures r.Err? ==> Blames(r.outcome, old(Now()), Now(), who)
      ensures RepeatedUpTo(old(calls), calls, |calls| - |old(calls)| - 1)
    {
      ghost var start, attempt := Now(), 0;
      r, attempt := KeepAsking(phase, id, op);
      AskedTouches(mode, who, start, Now(), id, op, attempt, r);
      LastReports(mode, who, start, Now(), id, phase, op, attempt, r);
    }

    /** Save the item in its next state, and only then make the call that state allows. */
    method SaveThenAsk(item: Row, next: ItemState, phase: Phase, op: Op) returns (r: Answered, out: Row)
      requires Valid() && item.fileId in rows && SameItem(item, rows[item.fileId])
      requires !next.Verified? && !next.Discovered? && MayCall(item.(state := next), op)
      requires PhaseRole(phase) == TokenOf(op)
      requires mode != Arbitrary ==> Linked(item.(state := next), remote[item.fileId], who)
      modifies `faults, `rows, `remote, `calls, `slept
      ensures Valid() && out == item.(state := next) && Touched(mode, old(Now()), Now(), item.fileId, 7, 69)
      ensures AskedUnder(mode, who, old(Now()), Now(), out, op, r)
    {
      out := item.(state := next);
      ghost var start := Now();
      var ok := SaveItem(out);
      if !ok {
        NotAsked(mode, who, start, Now(), out, op);
        return Err(StoreFailed), out;
      }
      ghost var saved := Now();
      r := Retry(phase, item.fileId, op);
      TouchedJoin(mode, start, saved, Now(), item.fileId, 0, 0, 7, 69);
      AskedAfterSave(mode, who, start, saved, Now(), out, phase, op, r);
    }

    /** Note the target's permission and save the item as ready to accept. */
    method RecordPermission(item: Row, permissionId: string) returns (p: Prepared, out: Row)
      requires Valid() && item.fileId in rows && SameItem(item, rows[item.fileId]) && BeforeAcceptance(item.state)
      requires
        var ready := item.(state := AcceptRequired, targetPermission := Some(permissionId));
        mode != Arbitrary ==> Linked(ready, remote[item.fileId], who)
      modifies `faults, `rows
      ensures Valid() && Touched(mode, old(Now()), Now(), item.fileId, 0, 0)
      ensures Prepares(item, p, out, rows)
      ensures p.Go? ==> p.action.AcceptWith?
      ensures p.Stop? ==> Blames(p.outcome, old(Now()), Now(), who)
      ensures mode == Reliable ==> p.Go?
    {
      var noted := item.(targetPermission := Some(permissionId));
      AdvancingFollowsTable(noted);
      var advanced := AdvancedToAcceptRequired(noted);
      if advanced.None? { return Stop(InvalidState), noted; }
      out := advanced.value;
      var ok := SaveItem(out);
      p := if ok then Go(AcceptWith(permissionId)) else Stop(StoreFailed);
    }

    /** Ask for pending ownership, then save the item as ready to accept. */
    method BecomePendingOwner(item: Row, op: Op) returns (p: Prepared, out: Row)
      requires Valid() && item.fileId in rows && SameItem(item, rows[item.fileId]) && BeforeAcceptance(item.state)
      requires op.CreatePendingOwner? || op.UpdatePendingOwner?
      requires mode != Arbitrary ==>
                 Linked(item, remote[item.fileId], who) && remote[item.fileId].owners == [who.source]
      modifies `faults, `rows, `remote, `calls, `slept
      ensures Valid() && Touched(mode, old(Now()), Now(), item.fileId, 7, 69)
      ensures Requested(mode, who, old(Now()), Now(), item, op, p, out)
    {
      ghost var start := Now();
      if !item.state.CanTransitionTo(PendingOwnerRequired) {
        MayNotAsk(mode, who, start, item, op);
        return Stop(InvalidState), item;
      }
      var granted;
      granted, out := SaveThenAsk(item, PendingOwnerRequired, PendingOwner, op);
      if granted.Err? {
        NotGranted(mode, who, start, Now(), item, op, granted, out);
        p := Stop(granted.outcome);
      } else {
        p, out := RecordGrant(item, out, op, granted, start);
      }
    }

    /** The permission that was granted is saved with the item. */
    method RecordGrant(ghost item: Row, sent: Row, ghost op: Op, granted: Answered, ghost start: World)
      returns (p: Prepared, out: Row)
      requires Valid() && Saved(sent, rows) && sent == item.(state := PendingOwnerRequired)
      requires op.CreatePendingOwner? || op.UpdatePendingOwner?
      requires AskedUnder(mode, who, start, Now(), sent, op, granted) && granted.Ok?
      requires Touched(mode, start, Now(), item.fileId, 7, 69)
      modifies `faults, `rows
      ensures Valid() && Touched(mode, start, Now(), item.fileId, 7, 69)
      ensures Requested(mode, who, start, Now(), item, op, p, out)
    {
      ghost var asked := Now();
      if mode != Arbitrary { GrantLinks(mode, who, start, asked, sent, op, granted); }
      p, out := RecordPermission(sent, granted.answer.permission.id);
      TouchedJoin(mode, start, asked, Now(), item.fileId, 7, 69, 0, 0);
      GrantRecorded(mode, who, start, asked, Now(), item, sent, op, granted, p, out);
    }

    /** Move the item along one edge of the table and save it. */
    method MoveAndSave(item: Row, next: ItemState, action: PrepareAction) returns (p: Prepared, out: Row)
      requires Valid() && Held(item, rows) && !next.Verified?
      requires mode != Arbitrary ==> Linked(item.(state := next), remote[item.fileId], who)
      modifies `faults, `rows
      ensures Valid() && Touched(mode, old(Now()), Now(), item.fileId, 0, 0) && SameItem(item, out)
      ensures p.Go? ==> p.action == action && Saved(out, rows) && Moved(item, next) == Some(out)
      ensures p.Stop? ==>
                if item.state.CanTransitionTo(next) then mode != Reliable && p.outcome.StoreFailed?
                else p.outcome.InvalidState? && rows == old(rows)
      ensures p.Stop? ==> Blames(p.outcome, old(Now()), Now(), who)
    {
      var moved := Moved(item, next);
      if moved.None? { return Stop(InvalidState), item; }
      out := moved.value;
      var ok := SaveItem(out);
      p := if ok then Go(action) else Stop(StoreFailed);
    }

    /** Decide from what the source's token showed; only a live, source-owned item of My Drive is asked for. */
    method ActOn(item: Row, s: Snapshot) returns (p: Prepared, out: Row)
      requires Valid() && Held(item, rows) && BeforeAcceptance(item.state)
      requires mode != Arbitrary ==> s == remote[item.fileId]
      modifies `faults, `rows, `remote, `calls, `slept
      ensures Valid() && Touched(mode, old(Now()), Now(), item.fileId, 7, 69)
      ensures Readied(mode, who, old(Now()), Now(), item, s, p, out)
    {
      if s.trashed {
        p, out := Settle(item, s, SkippedTrashed, Finished(SkippedTrashed));
        return;
      }
      if s.driveId.Some? {
        p, out := Settle(item, s, SkippedSharedDrive, Finished(SkippedSharedDrive));
        return;
      }
      var targetOwns, sourceOwns := who.target in s.owners, who.source in s.owners;
      if targetOwns && !sourceOwns {
        p, out := Settle(item, s, Verifying, VerifyOnly);
        return;
      }
      if !sourceOwns { return Stop(Permanent(OfReason("source_not_owner"))), item; }
      p, out := RequestOwnership(item, s);
    }

    /** Nothing to ask for: the item is skipped, or only left to be verified. */
    method Settle(item: Row, s: Snapshot, next: ItemState, action: PrepareAction) returns (p: Prepared, out: Row)
      requires Valid() && Held(item, rows) && BeforeAcceptance(item.state)
      requires ActionFits(s, who, action) && (action == Finished(next) || (action.VerifyOnly? && next.Verifying?))
      requires mode != Arbitrary ==> s == remote[item.fileId]
      modifies `faults, `rows
      ensures Valid() && Touched(mode, old(Now()), Now(), item.fileId, 0, 0)
      ensures Readied(mode, who, old(Now()), Now(), item, s, p, out)
    {
      p, out := MoveAndSave(item, next, action);
    }

    /** The target has a permission already: it is taken as it is, or made a pending owner's. */
    method UsePermission(item: Row, s: Snapshot, permission: Permission) returns (p: Prepared, out: Row)
      requires Valid() && Held(item, rows) && BeforeAcceptance(item.state)
      requires !s.trashed && s.driveId.None? && who.source in s.owners
      requires FindTargetPermission(s.permissions, who) == Some(permission)
      requires mode != Arbitrary ==> s == remote[item.fileId] && s.owners == [who.source]
      modifies `faults, `rows, `remote, `calls, `slept
      ensures Valid() && Touched(mode, old(Now()), Now(), item.fileId, 7, 69)
      ensures Readied(mode, who, old(Now()), Now(), item, s, p, out)
    {
      ghost var start := Now();
      var noted := item.(targetPermission := Some(permission.id));
      if permission.pendingOwner || EqIgnoreAsciiCase(permission.role, "owner") {
        if mode != Arbitrary { FoundIsPending(s, who, item.parents, permission); }
        p, out := RecordPermission(noted, permission.id);
        PermissionRecorded(mode, who, start, Now(), item, noted, s, p, out);
      } else {
        p, out := BecomePendingOwner(noted, UpdatePendingOwner(permission.id));
        RequestReadies(mode, who, start, Now(), item, noted, s, UpdatePendingOwner(permission.id), p, out);
      }
    }

    method RequestOwnership(item: Row, s: Snapshot) returns (p: Prepared, out: Row)
      requires Valid() && Held(item, rows) && BeforeAcceptance(item.state)
      requires !s.trashed && s.driveId.None? && who.source in s.owners
      requires mode != Arbitrary ==> s == remote[item.fileId] && s.owners == [who.source]
      modifies `faults, `rows, `remote, `calls, `slept
      ensures Valid() && Touched(mode, old(Now()), Now(), item.fileId, 7, 69)
      ensures Readied(mode, who, old(Now()), Now(), item, s, p, out)
    {
      ghost var start := Now();
      var existing := FindTargetPermission(s.permissions, who);
      match existing
      case Some(permission) => p, out := UsePermission(item, s, permission);
      case None =>
        p, out := BecomePendingOwner(item, CreatePendingOwner);
        RequestReadies(mode, who, start, Now(), item, item, s, CreatePendingOwner, p, out);
    }

    /** Where the item stands, from its saved state and, before acceptance, from what Drive shows the source. */
    method ReconcileAndPrepare(item: Row) returns (p: Prepared, out: Row)
      requires Valid() && Held(item, rows) && item.state.IsTransferActive()
      modifies `faults, `rows, `remote, `calls, `slept
      ensures Valid() && Touched(mode, old(Now()), Now(), item.fileId, 14, 138)
      ensures Prepares(item, p, out, rows)
      ensures PreparedBy(old(Now()), Now(), who, item, p)
      ensures mode == Reliable && Acceptable(item, old(remote)[item.fileId], who) ==>
                p.Go? && !p.action.Finished?
                && (p.action.AcceptWith? ==> remote[item.fileId].owners == [who.source])
    {
      if item.state.Transferred? || item.state.Verifying? {
        p, out := MoveAndSave(item, Verifying, VerifyOnly);
        return;
      }
      if item.state.AcceptRequired? || item.state.Accepting? {
        out := item;
        match item.targetPermission
        case None => return Stop(Permanent(OfReason("missing_target_permission"))), item;
        case Some(id) => return Go(AcceptWith(id)), item;
      }
      p, out := ReadAndAct(item);
    }

    method ReadAndAct(item: Row) returns (p: Prepared, out: Row)
      requires Valid() && Held(item, rows) && BeforeAcceptance(item.state)
      modifies `faults, `rows, `remote, `calls, `slept
      ensures Valid() && Touched(mode, old(Now()), Now(), item.fileId, 14, 138)
      ensures Prepares(item, p, out, rows)
      ensures PreparedBy(old(Now()), Now(), who, item, p)
      ensures mode == Reliable ==>
                && p.Go? && !p.action.Finished?
                && (p.action.AcceptWith? ==> remote[item.fileId].owners == [who.source])
    {
      ghost var start := Now();
      var seen := Retry(Reconcile, item.fileId, GetFile(Source));
      if seen.Err? { return Stop(seen.outcome), item; }
      ghost var read := Now();
      p, out := ActOn(item, seen.answer.snapshot);
      ReadPrepares(mode, who, start, read, Now(), item, seen.answer.snapshot, p, out);
      TouchedJoin(mode, start, read, Now(), item.fileId, 7, 69, 7, 69);
    }

    /** Save the item as accepting, accept, and save that it was transferred. */
    method AcceptOwnership(item: Row, permissionId: string) returns (failure: Option<StepOutcome>, out: Row)
      requires Valid() && Saved(item, rows) && item.targetPermission == Some(permissionId)
      requires item.state.AcceptRequired? || item.state.Accepting?
      modifies `faults, `rows, `remote, `calls, `slept
      ensures Valid() && Touched(mode, old(Now()), Now(), item.fileId, 7, 69) && SameItem(item, out)
      ensures failure.None? ==> Saved(out, rows) && out.state.Transferred?
      ensures failure.Some? && !failure.value.StoreFailed? ==>
                Saved(out, rows) && out.state.Accepting? && !failure.value.InvalidState?
      ensures failure.Some? ==> Blames(failure.value, old(Now()), Now(), who)
      ensures mode == Reliable && old(remote)[item.fileId].owners == [who.source] ==> failure.None?
    {
      assert item.state.CanTransitionTo(Accepting);
      ghost var start := Now();
      var accepted;
      accepted, out := SaveThenAsk(item, Accepting, Accept, DriveModel.AcceptOwnership(permissionId));
      if accepted.Err? { return Some(accepted.outcome), out; }
      ghost var asked := Now();
      var p;
      p, out := MoveAndSave(out, Transferred, VerifyOnly);
      TouchedJoin(mode, start, asked, Now(), item.fileId, 7, 69, 0, 0);
      failure := if p.Stop? then Some(p.outcome) else None;
    }

    /** One look with the target's token. */
    method Look(item: Row) returns (sight: Sight, out: Row)
      requires Valid() && Saved(item, rows) && item.state.Verifying?
      modifies `faults, `rows, `remote, `calls, `slept
      ensures Valid() && Touched(mode, old(Now()), Now(), item.fileId, 7, 69)
      ensures |calls| > |old(calls)| && Shows(sight, item, out, rows, calls[|calls| - 1], who)
      ensures calls[|calls| - 1].saved == item
      ensures sight.Ends? ==> Blames(sight.failure, old(Now()), Now(), who)
      ensures mode == Reliable ==> sight.Confirmed?
    {
      ghost var start := Now();
      var seen := Retry(Verify, item.fileId, GetFile(Target));
      if seen.Err? { return Ends(seen.outcome), item; }
      var s := seen.answer.snapshot;
      if s.trashed {
        var p;
        ghost var read := Now();
        p, out := MoveAndSave(item, SkippedTrashed, Finished(SkippedTrashed));
        TouchedJoin(mode, start, read, Now(), item.fileId, 7, 69, 0, 0);
        return if p.Stop? then Ends(p.outcome) else Trashed, out;
      }
      var targetOwns, sourceOwns := who.target in s.owners, who.source in s.owners;
      out := item;
      if targetOwns && !sourceOwns && multiset(s.parents) == multiset(item.parents) {
        sight := Confirmed;
      } else if !targetOwns && !sourceOwns {
        sight := Ends(Permanent(OfReason("ownership_not_transferred")));
      } else {
        sight := NotYet;
      }
    }

    /** Look until the transfer shows complete, at most seven times. */
    method LookUntilConfirmed(item: Row) returns (sight: Sight, out: Row)
      requires Valid() && Saved(item, rows) && item.state.Verifying?
      modifies `faults, `rows, `remote, `calls, `slept
      ensures Valid() && LooksEnd(mode, who, old(Now()), Now(), item, sight, out)
    {
      ghost var start := Now();
      var attempt := 0;
      while true
        invariant attempt <= MAX_RETRY_ATTEMPTS
        invariant Valid() && Saved(item, rows) && LookedFor(mode, start, Now(), item.fileId, attempt)
        decreases MAX_RETRY_ATTEMPTS - attempt
      {
        var ended;
        sight, out, ended := LookAgain(item, attempt, start);
        if ended { return; }
        attempt := attempt + 1;
      }
    }

    /** Look once more, and sleep if the transfer does not show complete and this was not the seventh look. */
    method LookAgain(item: Row, attempt: nat, ghost start: World) returns (sight: Sight, out: Row, ended: bool)
      requires Valid() && Saved(item, rows) && item.state.Verifying? && attempt <= MAX_RETRY_ATTEMPTS
      requires LookedFor(mode, start, Now(), item.fileId, attempt)
      modifies `faults, `rows, `remote, `calls, `slept
      ensures Valid() && attempt <= MAX_RETRY_ATTEMPTS
      ensures if ended then LooksEnd(mode, who, start, Now(), item, sight, out)
              else attempt < MAX_RETRY_ATTEMPTS && Saved(item, rows)
                   && LookedFor(mode, start, Now(), item.fileId, attempt + 1)
    {
      ghost var before := Now();
      sight, out := Look(item);
      ghost var looked := Now();
      LookedAgain(mode, start, before, looked, item.fileId, attempt);
      ended := !sight.NotYet? || attempt >= MAX_RETRY_ATTEMPTS;
      if ended {
        ghost var last := sight;
        if sight.NotYet? { sight := Ends(Retryable(OfReason("ownership_not_verified"))); }
        LookingEnds(mode, who, start, before, looked, item, attempt, last, sight, out);
      } else {
        Sleep(attempt);
        LookedInVain(mode, start, looked, Now(), item.fileId, attempt);
      }
    }

    method VerifyOwnership(item: Row) returns (failure: Option<StepOutcome>, out: Row)
      requires Valid() && Saved(item, rows) && (item.state.Transferred? || item.state.Verifying?)
      modifies `faults, `rows, `remote, `calls, `slept
      ensures Valid() && Touched(mode, old(Now()), Now(), item.fileId, 49, 552)
      ensures Checked(mode, who, old(Now()), Now(), item, failure, out)
    {
      ghost var start := Now();
      var p, sight;
      p, out := MoveAndSave(item, Verifying, VerifyOnly);
      ghost var saved := Now();
      if p.Stop? {
        NotSavedAsVerifying(mode, who, start, saved, item, p, out);
        return Some(p.outcome), out;
      }
      ghost var verifying := out;
      sight, out := LookUntilConfirmed(out);
      TouchedJoin(mode, start, saved, Now(), item.fileId, 0, 0, 49, 552);
      SightChecks(mode, who, start, saved, Now(), item, verifying, sight, out);
      failure := if sight.Ends? then Some(sight.failure) else None;
    }

    /** The trouble the whole job is in is noted on the item it was met at. */
    method NoteHalt(item: Row, o: StepOutcome) returns (r: StepResult)
      requires Valid() && Held(item, rows) && item.state.IsTransferActive() && o.Halting?
      modifies `faults, `rows
      ensures Valid() && Touched(mode, old(Now()), Now(), item.fileId, 0, 0)
      ensures GivenUpAs(old(Now()), Now(), item, o, r)
      ensures mode == Reliable ==> !r.Fatal?
    {
      var ok := SaveItem(item.(lastError := Some(o.details)));
      r := if ok then Halted(o.trouble) else Fatal;
    }

    /** The item has failed, for good or for now. */
    method NoteFailure(item: Row, o: StepOutcome) returns (r: StepResult)
      requires Valid() && Held(item, rows) && item.state.IsTransferActive() && (o.Permanent? || o.Retryable?)
      modifies `faults, `rows
      ensures Valid() && Touched(mode, old(Now()), Now(), item.fileId, 0, 0)
      ensures GivenUpAs(old(Now()), Now(), item, o, r)
      ensures mode == Reliable ==> !r.Fatal?
    {
      var noted := item.(lastError := Some(o.details));
      var failed := Moved(noted, if o.Permanent? then PermanentFailed else RetryableFailed).value;
      FailureIsMoved(noted, failed.state);
      if mode != Arbitrary { FailureIsLinked(item, failed, rows, remote[item.fileId], who); }
      var ok := SaveItem(failed);
      r := if ok then Failed else Fatal;
    }

    /** Save how the step ended. */
    method FinalizeStep(item: Row, o: StepOutcome) returns (r: StepResult)
      requires Valid() && (o.StoreFailed? || o.InvalidState? || (Held(item, rows) && item.state.IsTransferActive()))
      requires item.fileId in rows
      modifies `faults, `rows
      ensures Valid() && Touched(mode, old(Now()), Now(), item.fileId, 0, 0)
      ensures GivenUpAs(old(Now()), Now(), item, o, r)
      ensures mode == Reliable && r.Fatal? ==> o.StoreFailed? || o.InvalidState?
    {
      if o.StoreFailed? || o.InvalidState? { return Fatal; }
      if o.Halting? {
        r := NoteHalt(item, o);
      } else {
        r := NoteFailure(item, o);
      }
    }

    /** Give up an item's step for a reason that arose since it began. */
    method GiveUp(ghost item: Row, current: Row, o: StepOutcome, ghost start: World) returns (r: StepResult)
      requires Valid()
      requires o.StoreFailed? || o.InvalidState? || (Held(current, rows) && current.state.IsTransferActive())
      requires current.fileId in rows && current.fileId == item.fileId
      requires Blames(o, start, Now(), who) || (o.Permanent? && LacksPermission(start, Now(), item))
      requires start.faults <= faults && (o.InvalidState? ==> item.state.PendingOwnerCreated?)
      modifies `faults, `rows
      ensures Valid() && Touched(mode, old(Now()), Now(), item.fileId, 0, 0) && calls == old(calls)
      ensures EndsAs(r, rows[item.fileId]) && Deserved(r, item, rows[item.fileId], start, Now(), who) && !r.Done?
      ensures r.Failed? ==> o.Permanent? || o.Retryable?
    {
      ghost var before := Now();
      r := FinalizeStep(current, o);
      GivenUpDeserves(start, before, Now(), item, current, o, r, who);
    }

    /** Bring the item to where only verification is left, or to the end of its step. */
    method Bring(item: Row) returns (ended: Option<StepResult>, out: Row)
      requires Valid() && Held(item, rows) && item.state.IsTransferActive()
      modifies `faults, `rows, `remote, `calls, `slept
      ensures Valid() && Touched(mode, old(Now()), Now(), item.fileId, 21, 207)
      ensures Brought(old(Now()), Now(), item, ended, out, who)
      ensures mode == Reliable && Acceptable(item, old(remote)[item.fileId], who) ==> ended.None?
    {
      ghost var start := Now();
      var p;
      p, out := ReconcileAndPrepare(item);
      ghost var prepared := Now();
      if p.Stop? {
        var r := GiveUp(item, out, p.outcome, start);
        TouchedJoin(mode, start, prepared, Now(), item.fileId, 14, 138, 0, 0);
        return Some(r), out;
      }
      match p.action
      case Finished(state) => ended := Some(Done(state));
      case VerifyOnly => ended := None;
      case AcceptWith(permissionId) =>
        ghost var ready := out;
        ended, out := TakeOver(out, permissionId);
        BroughtLater(start, prepared, Now(), item, ready, ended, out, who);
        TouchedJoin(mode, start, prepared, Now(), item.fileId, 14, 138, 7, 69);
    }

    method TakeOver(item: Row, permissionId: string) returns (ended: Option<StepResult>, out: Row)
      requires Valid() && Saved(item, rows) && item.targetPermission == Some(permissionId)
      requires item.state.AcceptRequired? || item.state.Accepting?
      modifies `faults, `rows, `remote, `calls, `slept
      ensures Valid() && Touched(mode, old(Now()), Now(), item.fileId, 7, 69)
      ensures Brought(old(Now()), Now(), item, ended, out, who)
      ensures mode == Reliable && old(remote)[item.fileId].owners == [who.source] ==> ended.None?
    {
      ghost var start := Now();
      var failure;
      failure, out := AcceptOwnership(item, permissionId);
      if failure.None? { return None, out; }
      ghost var tried := Now();
      var r := GiveUp(item, out, failure.value, start);
      TouchedJoin(mode, start, tried, Now(), item.fileId, 7, 69, 0, 0);
      ended := Some(r);
    }

    method VerifyAndRecord(item: Row) returns (r: StepResult)
      requires Valid() && Saved(item, rows) && (item.state.Transferred? || item.state.Verifying?)
      modifies `faults, `rows, `remote, `calls, `slept
      ensures Valid() && Within(mode, old(Now()), Now(), item.fileId, 49, 552)
      ensures EndsAs(r, rows[item.fileId]) && Deserved(r, item, rows[item.fileId], old(Now()), Now(), who)
      ensures r.Failed? ==> |calls| > |old(calls)|
      ensures rows[item.fileId].state.Verified? ==>
                |calls| > |old(calls)| && Confirms(calls[|calls| - 1], item, who)
      ensures mode == Reliable ==> r == Done(Verified) && remote[item.fileId].owners == [who.target]
    {
      ghost var start := Now();
      var failure, current;
      failure, current := VerifyOwnership(item);
      ghost var looked := Now();
      if failure.Some? {
        r := GiveUp(item, current, failure.value, start);
        TouchedJoin(mode, start, looked, Now(), item.fileId, 49, 552, 0, 0);
        return;
      }
      r := Record(current);
    }

    /** The end of verification: a skipped item is done, any other is saved as verified. */
    method Record(item: Row) returns (r: StepResult)
      requires Valid() && Saved(item, rows)
      requires item.state.Verifying? || (item.state.SkippedTrashed? && item.lastError.None?)
      modifies `faults, `rows
      ensures Valid() && Within(mode, old(Now()), Now(), item.fileId, 0, 0)
      ensures EndsAs(r, rows[item.fileId]) && !r.Halted?
      ensures item.state.SkippedTrashed? ==> rows == old(rows) && r == Done(SkippedTrashed)
      ensures item.state.Verifying? ==> if r.Fatal? then faults > old(faults) else r == Done(Verified)
      ensures mode == Reliable && item.state.Verifying? ==> r == Done(Verified)
    {
      if item.state.IsTerminal() { return Done(item.state); }
      var verified := Moved(item.(lastError := None), Verified).value;
      var ok := SaveItem(verified);
      r := if ok then Done(Verified) else Fatal;
    }

    /** Take one item as far as it goes. */
    method TransferOne(item: Row) returns (r: StepResult)
      requires Valid() && Held(item, rows)
      modifies `faults, `rows, `remote, `calls, `slept
      ensures Valid() && Within(mode, old(Now()), Now(), item.fileId, 70, 759)
      ensures item.state.IsTerminal() ==> r == Done(item.state) && Now() == old(Now())
      ensures item.state.IsTransferActive() ==> EndsAs(r, rows[item.fileId])
      ensures item.state.IsTransferActive() ==> Deserved(r, item, rows[item.fileId], old(Now()), Now(), who)
      ensures NewlyVerified(item, rows[item.fileId]) ==>
                |calls| > |old(calls)| && Confirms(calls[|calls| - 1], item, who)
      ensures mode == Reliable && item.state.IsTransferActive()
              && Acceptable(item, old(remote)[item.fileId], who) ==>
                r == Done(Verified) && remote[item.fileId].owners == [who.target]
    {
      if item.state.IsTerminal() { return Done(item.state); }
      var ended, current := Bring(item);
      if ended.Some? { return ended.value; }
      ghost var start, brought := old(Now()), Now();
      r := VerifyAndRecord(current);
      DeservedLater(start, brought, Now(), item, current, rows[item.fileId], r, who);
    }

    /** One step of a run that began at `start` and has counted so far. */
    method StepItem(
      items: seq<Row>, ghost ids: set<string>, i: nat, verified: nat, failed: nat, ghost start: World)
      returns (s: Stepped)
      requires Valid() && Slice(items, ids, start.rows) && i < |items| && items[i].state.IsTransferActive()
      requires RunAt(mode, who, start, Now(), items, ids, i, verified, failed)
      modifies `faults, `rows, `remote, `calls, `slept
      ensures Valid() && StepsOn(mode, who, start, Now(), items, ids, i, s)
      ensures mode == Reliable && AllAcceptable(items, start.remote, who) ==> s.GoesOn?
    {
      ghost var before := Now();
      var step := TransferOne(items[i]);
      RunStep(mode, who, start, before, Now(), items, ids, i, verified, failed, step);
      s := AfterStep(step, verified, failed);
    }

    /** Between two items a user may ask for what failed to be tried again; the run does not look back. */
    method MeetRetry(
      items: seq<Row>, ghost ids: set<string>, i: nat, ghost verified: nat, ghost failed: nat, ghost start: World)
      requires Valid() && Slice(items, ids, start.rows) && i <= |items|
      requires RunAt(mode, who, start, Now(), items, ids, i, verified, failed)
      modifies `faults, `rows, `retried
      ensures Valid() && RunAt(mode, who, start, Now(), items, ids, i, verified, failed)
      ensures old(faults) <= faults
      ensures Now() == old(Now()).(faults := faults) || Now() == ResetBehind(old(Now()), items, i).(faults := faults)
    {
      var asked: bool := *;
      if !asked { return; }
      ghost var before := Now();
      var ok := RetryFailedItems();
      if rows == Requeued(before.rows) {
        retried := retried + [Retried(before.rows, Names(items, i))];
        RunRetried(mode, who, start, before, Now(), items, ids, i, verified, failed);
      }
    }

    /** The next item of a run; the store is read again after it. */
    method StepAndCount(
      items: seq<Row>, ghost ids: set<string>, i: nat, verified: nat, failed: nat, ghost start: World)
      returns (s: Stepped)
      requires Valid() && Slice(items, ids, start.rows) && i < |items| && items[i].state.IsTransferActive()
      requires RunAt(mode, who, start, Now(), items, ids, i, verified, failed)
      modifies `faults, `rows, `remote, `calls, `slept
      ensures Valid() && StepsOn(mode, who, start, Now(), items, ids, i, s)
      ensures mode == Reliable && AllAcceptable(items, start.remote, who) ==> s.GoesOn?
    {
      s := StepItem(items, ids, i, verified, failed, start);
      ghost var stepped := Now();
      if s.GoesOn? {
        var counted := ReadStore();
        StoreWasRead(mode, who, start, stepped, Now(), items, ids, i, s, counted);
        if !counted { s := StopsWith(None); }
      }
    }

    /** What may come between two items: a retry request, and a request to stop. */
    method BetweenItems(
      items: seq<Row>, ghost ids: set<string>, i: nat, ghost verified: nat, ghost failed: nat, ghost start: World)
      returns (stop: Option<Halt>)
      requires Valid() && Slice(items, ids, start.rows) && i < |items|
      requires RunAt(mode, who, start, Now(), items, ids, i, verified, failed)
      modifies `faults, `rows, `retried, `pause, `cancel
      ensures Valid() && RunAt(mode, who, start, Now(), items, ids, i, verified, failed)
      ensures stop.Some? ==> IsStop(stop) && RunEnds(mode, who, start, Now(), items, ids, i, stop)
      ensures stop.Some? <==> pause || cancel
      ensures WasAsked(stop, pause, cancel) && (old(pause) || old(cancel) ==> stop.Some?) && calls == old(calls)
    {
      MeetRetry(items, ids, i, verified, failed, start);
      ghost var met := Now();
      stop := StopRequested();
      assert Now() == met;
      if stop.Some? { RunBreaksOff(mode, who, start, met, items, ids, i, verified, failed, stop.value); }
    }

    /** The next item of a run, unless a request comes first. */
    method StepUnlessStopped(
      items: seq<Row>, ghost ids: set<string>, i: nat, verified: nat, failed: nat, ghost start: World)
      returns (s: Stepped)
      requires Valid() && Slice(items, ids, start.rows) && i < |items| && items[i].state.IsTransferActive()
      requires RunAt(mode, who, start, Now(), items, ids, i, verified, failed)
      modifies `faults, `rows, `remote, `calls, `slept, `retried, `pause, `cancel
      ensures Valid()
      ensures s.StopsWith? ==> WasAsked(s.halt, pause, cancel)
      ensures old(pause) || old(cancel) ==> s.StopsWith? && IsStop(s.halt) && calls == old(calls)
      ensures if s.GoesOn? then RunAt(mode, who, start, Now(), items, ids, i + 1, s.verified, s.failed)
              else RunEnds(mode, who, start, Now(), items, ids, i, s.halt)
      ensures mode == Reliable && AllAcceptable(items, start.remote, who) ==> s.GoesOn? || Between(s.halt)
    {
      var stop := BetweenItems(items, ids, i, verified, failed, start);
      if stop.Some? { return StopsWith(stop); }
      s := StepAndCount(items, ids, i, verified, failed, start);
    }

    /** Take the items one by one; a pause or cancel request is honoured between two of them. */
    method TransferItems(items: seq<Row>, ghost ids: set<string>) returns (r: Option<Halt>, ghost at: nat)
      requires Valid() && Slice(items, ids, rows)
      requires forall k :: 0 <= k < |items| ==> items[k].state.IsTransferActive()
      modifies `faults, `rows, `remote, `calls, `slept, `retried, `pause, `cancel
      ensures Valid() && RunEnds(mode, who, old(Now()), Now(), items, ids, at, r)
      ensures WasAsked(r, pause, cancel)
      ensures mode == Reliable && AllAcceptable(items, old(remote), who) ==> Between(r)
    {
      ghost var start := Now();
      var s, i := GoesOn(0, 0), 0;
      RunStarts(mode, who, start, items, ids);
      while i < |items|
        invariant i <= |items| && Valid() && s.GoesOn?
        invariant RunAt(mode, who, start, Now(), items, ids, i, s.verified, s.failed)
      {
        s := StepUnlessStopped(items, ids, i, s.verified, s.failed, start);
        if s.StopsWith? { break; }
        i := i + 1;
      }
      at := i;
      if s.StopsWith? { return s.halt, at; }
      r := RunOut(items, ids, s.verified, s.failed, start);
    }

    /** The end of the list. */
    method RunOut(items: seq<Row>, ghost ids: set<string>, verified: nat, failed: nat, ghost start: World)
      returns (r: Option<Halt>)
      requires Valid() && Slice(items, ids, start.rows)
      requires RunAt(mode, who, start, Now(), items, ids, |items|, verified, failed)
      modifies `faults, `rows, `retried
      ensures Valid() && r.Some? && r.value.Exhausted? && RunEnds(mode, who, start, Now(), items, ids, |items|, r)
    {
      MeetRetry(items, ids, |items|, verified, failed, start);
      RunRunsOut(mode, who, start, Now(), items, ids, verified, failed);
      r := Some(Exhausted(verified, failed));
    }

    /** Other tasks may ask the run to stop at any time; cancelling comes before pausing. */
    method StopRequested() returns (halt: Option<Halt>)
      modifies `pause, `cancel
      ensures (old(pause) ==> pause) && (old(cancel) ==> cancel)
      ensures if cancel then halt == Some(CancelRequested)
              else if pause then halt == Some(PauseRequested)
              else halt.None?
    {
      var pauseNow: bool, cancelNow: bool := *, *;
      pause, cancel := pause || pauseNow, cancel || cancelNow;
      if cancel { return Some(CancelRequested); }
      if pause { return Some(PauseRequested); }
      halt := None;
    }

    /** Reading the store can fail. */
    method ReadStore() returns (ok: bool)
      modifies `faults
      ensures mode == Reliable ==> ok
      ensures faults == if ok then old(faults) else old(faults) + 1
    {
      ok := *;
      if mode == Reliable { ok := true; }
      if !ok { faults := faults + 1; }
    }

    /** A missing file is given up, a refused token stops the run, anything else is an error of the whole pass. */
    method NoteUnreadable(item: Row, error: DriveError, role: AccountRole) returns (ok: bool, halt: Option<Trouble>)
      requires Valid() && Saved(item, rows) && item.state.IsIntermediateCheckpoint() && mode != Reliable
      modifies `faults, `rows
      ensures Valid() && Touched(mode, old(Now()), Now(), item.fileId, 0, 0)
      ensures NotedAs(old(Now()), Now(), item, error, role, ok, halt)
    {
      var noted := item.(lastError := Some(OfDrive(error)));
      halt := None;
      if error.NotFound? {
        ok := SaveItem(noted.(state := PermanentFailed));
      } else if error.Unauthorized? {
        ok := SaveItem(noted);
        if ok { halt := Some(AuthRequired(role)); }
      } else {
        ok := false;
      }
    }

    /** Bring an interrupted item's row up to date with Drive by one read. */
    method ReconcileOne(item: Row) returns (ok: bool, halt: Option<Trouble>)
      requires Valid() && Saved(item, rows) && item.state.IsIntermediateCheckpoint()
      modifies `faults, `rows, `remote, `calls
      ensures Valid() && Touched(mode, old(Now()), Now(), item.fileId, 1, 0)
      ensures LookedOver(mode, who, old(Now()), Now(), item, ok, halt)
    {
      var role := if item.state.PendingOwnerCreated? then Source else Target;
      ghost var start := Now();
      var a := Perform(item.fileId, GetFile(role));
      ghost var read := Now();
      OneRead(mode, who, start, read, item, role, a);
      if a.Fault? {
        ok, halt := NoteUnreadable(item, a.error, role);
        UnreadableNoted(mode, who, start, read, Now(), item, role, a.error, ok, halt);
      } else {
        ReconciledFits(item, a.snapshot, who);
        ok := SaveItem(Reconciled(item, a.snapshot, who));
        halt := None;
        ReadingSaved(mode, who, start, read, Now(), item, role, a.snapshot, ok);
      }
    }

    /** Before a resumed run: one look at every item an interruption may have left between two steps. */
    method ReconcileCheckpoint(items: seq<Row>, ghost ids: set<string>) returns (ok: bool, halt: Option<Trouble>)
      requires Valid() && Slice(items, ids, rows)
      requires forall k :: 0 <= k < |items| ==> items[k].state.IsTransferActive()
      modifies `faults, `rows, `remote, `calls
      ensures Valid() && OnlyLooked(mode, old(Now()), Now(), ids)
      ensures ok && halt.None? ==> ReadSince(old(calls), calls, items, |items|)
      ensures halt.Some? ==> halt.value.AuthRequired? && calls != [] && TroubleOf(calls[|calls| - 1]) == halt
      ensures mode == Reliable ==> ok && halt.None? && Ready(Now(), items, |items|, who)
    {
      ghost var start := Now();
      var i := 0;
      while i < |items|
        invariant i <= |items| && Valid() && OnlyLooked(mode, start, Now(), ids)
        invariant ReadSince(start.calls, calls, items, i)
        invariant forall k :: i <= k < |items| ==> Saved(items[k], rows)
        invariant mode == Reliable ==> Ready(Now(), items, i, who)
      {
        ok, halt := LookAt(items, ids, i, start);
        if !ok || halt.Some? { return; }
        i := i + 1;
      }
      return true, None;
    }

    /** The look at one item of the list, if an interruption may have left it between two steps. */
    method LookAt(items: seq<Row>, ghost ids: set<string>, i: nat, ghost start: World)
      returns (ok: bool, halt: Option<Trouble>)
      requires Valid() && Slice(items, ids, start.rows) && i < |items| && items[i].state.IsTransferActive()
      requires OnlyLooked(mode, start, Now(), ids) && ReadSince(start.calls, calls, items, i)
      requires forall k :: i <= k < |items| ==> Saved(items[k], rows)
      requires mode == Reliable ==> Ready(Now(), items, i, who)
      modifies `faults, `rows, `remote, `calls
      ensures Valid() && OnlyLooked(mode, start, Now(), ids)
      ensures ok && halt.None? ==> ReadSince(start.calls, calls, items, i + 1)
      ensures halt.Some? ==> halt.value.AuthRequired? && calls != [] && TroubleOf(calls[|calls| - 1]) == halt
      ensures forall k :: i < k < |items| ==> Saved(items[k], rows)
      ensures mode == Reliable ==> ok && halt.None? && Ready(Now(), items, i + 1, who)
    {
      ghost var before := Now();
      ok, halt := true, None;
      if items[i].state.IsIntermediateCheckpoint() {
        ok, halt := ReconcileOne(items[i]);
        LookedOn(mode, who, start, before, Now(), items, ids, i, ok, halt);
      }
      ReadFurther(start.calls, before.calls, calls, items, i);
    }

    /** The rows of these files, each once, in any order. */
    method ListRows(ids: set<string>) returns (items: seq<Row>)
      requires Valid() && ids <= rows.Keys
      ensures Slice(items, ids, rows) && Covers(items, ids) && |items| == |ids|
    {
      items := [];
      var left := ids;
      while left != {}
        invariant left <= ids && Slice(items, ids, rows) && |items| + |left| == |ids|
        invariant forall k :: 0 <= k < |items| ==> items[k].fileId !in left
        invariant Covers(items, ids - left)
        decreases left
      {
        var id :| id in left;
        CoversMore(items, rows[id], ids, left);
        items := items + [rows[id]];
        left := left - {id};
      }
      assert ids - left == ids;
    }

    method ListItemsForTransfer() returns (ok: bool, items: seq<Row>)
      requires Valid()
      modifies `faults
      ensures Valid() && faults == if ok then old(faults) else old(faults) + 1
      ensures ok ==>
                Slice(items, ActiveIds(rows), rows) && Covers(items, ActiveIds(rows)) && |items| == |ActiveIds(rows)|
      ensures mode == Reliable ==> ok
    {
      ok := ReadStore();
      items := ListRows(ActiveIds(rows));
    }

    method ListCanaryCohort() returns (ok: bool, items: seq<Row>)
      requires Valid()
      modifies `faults
      ensures Valid() && faults == if ok then old(faults) else old(faults) + 1
      ensures ok ==> Slice(items, CohortIds(rows), rows) && Covers(items, CohortIds(rows))
      ensures mode == Reliable ==> ok
    {
      ok := ReadStore();
      items := ListRows(CohortIds(rows));
    }

    /** Save one item as a canary member; a starting batch also leaves Eligible. */
    method MarkOne(item: Row, starting: bool) returns (ok: bool, out: Row)
      requires Valid() && Saved(item, rows) && item.state.IsTransferActive()
      modifies `faults, `rows
      ensures Valid() && out == Marked(item, starting)
      ensures rows == old(rows) || rows == old(rows)[item.fileId := out]
      ensures ok ==> rows == old(rows)[item.fileId := out]
      ensures mode == Reliable ==> ok
      ensures faults == if ok then old(faults) else old(faults) + 1
    {
      out := Marked(item, starting);
      if starting || !item.canary {
        ok := StoreItem(out);
      } else {
        ok := true;
        assert rows == rows[item.fileId := out];
      }
    }

    /** Save the items as canary members, each before anything else happens to it. */
    method Mark(items: seq<Row>, ghost ids: set<string>, starting: bool) returns (ok: bool, marked: seq<Row>)
      requires Valid() && Slice(items, ids, rows)
      requires forall k :: 0 <= k < |items| ==> items[k].state.IsTransferActive()
      modifies `faults, `rows
      ensures Valid() && SelectedFrom(old(rows), rows) && ChangedWithin(old(rows), rows, items)
      ensures ok ==> MarkedAs(items, marked, |items|, rows, starting)
      ensures mode == Reliable ==> ok
      ensures faults == if ok then old(faults) else old(faults) + 1
    {
      marked := [];
      var i := 0;
      while i < |items|
        invariant i <= |items| && Valid() && SelectedFrom(old(rows), rows) && ChangedWithin(old(rows), rows, items)
        invariant MarkedAs(items, marked, i, rows, starting) && faults == old(faults)
      {
        ghost var before := rows;
        var out;
        ok, out := MarkOne(items[i], starting);
        MarkStep(old(rows), before, rows, items, ids, marked, i, starting);
        if !ok { return; }
        marked := marked + [out];
        i := i + 1;
      }
      ok := true;
    }

    /** A user asks for the failed items to be tried again; one transaction. */
    method RetryFailedItems() returns (ok: bool)
      requires Valid()
      modifies `faults, `rows
      ensures Valid() && (rows == old(rows) || rows == Requeued(old(rows)))
      ensures ok ==> rows == Requeued(old(rows))
      ensures faults == if ok then old(faults) else old(faults) + 1
    {
      var aborted: bool, reported: bool := *, *;
      ok := !aborted && reported;
      if !ok { faults := faults + 1; }
      if !aborted { rows := Requeued(rows); }
    }

    /** A cancelled job gives up what it has not begun; items in the middle of a transfer keep their state. */
    method CancelUnstartedItems() returns (ok: bool)
      requires Valid()
      modifies `faults, `rows
      ensures Valid() && (rows == old(rows) || rows == GivenUp(old(rows)))
      ensures ok ==> rows == GivenUp(old(rows))
      ensures faults == if ok then old(faults) else old(faults) + 1
    {
      var aborted: bool, reported: bool := *, *;
      ok := !aborted && reported;
      if !ok { faults := faults + 1; }
      if !aborted { rows := GivenUp(rows); }
    }

    /** The canary batch: the unfinished cohort, else what is under way, else the first items of the list. */
    method SelectCanaryBatch(size: nat) returns (ok: bool, batch: seq<Row>)
      requires Valid()
      modifies `faults, `rows
      ensures Valid() && SelectedFrom(old(rows), rows)
      ensures ok ==> Slice(batch, ActiveCohort(rows), rows) && Covers(batch, ActiveCohort(rows))
      ensures ok && CohortIds(old(rows)) != {} ==> rows == old(rows)
      ensures ok && CohortIds(old(rows)) == {} ==> Picks(old(rows), batch, size)
      ensures mode == Reliable ==> ok
      ensures faults == if ok then old(faults) else old(faults) + 1
    {
      var cohort;
      ok, cohort := ListCanaryCohort();
      if !ok { return false, []; }
      if cohort != [] {
        batch := Filter(NotTerminal, cohort);
        UnfinishedCohort(cohort, rows);
        return;
      }
      assert CohortIds(rows) == {} by { assert forall id :: id in CohortIds(rows) ==> |cohort| > 0; }
      ghost var before := rows;
      var items;
      ok, items := ListItemsForTransfer();
      if !ok { return false, []; }
      var chosen := Choice(items, size);
      ChoiceIsSlice(items, size, rows);
      var starting := Filter(NotEligible, items) == [];
      ok, batch := Mark(chosen, ActiveIds(before), starting);
      if ok {
        NewCohort(before, rows, chosen, ActiveIds(before), batch, starting);
        ChoicePicks(items, size, before, batch, rows);
      }
    }
  }
}
