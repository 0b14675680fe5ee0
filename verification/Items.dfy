/** Item states and their legal transitions, shared by the scanner and the transfer workers. */
module Items {

  datatype Option<+T> = None | Some(value: T)

  datatype ItemState =
    | Discovered
    | Eligible
    | PendingOwnerRequired
    | PendingOwnerCreated
    | AcceptRequired
    | Accepting
    | Transferred
    | Verifying
    | Verified
    | SkippedAlreadyOwnedByTarget
    | SkippedNotOwnedBySource
    | SkippedSharedDrive
    | SkippedShortcutTarget
    | SkippedTrashed
    | SkippedIneligible
    | RetryableFailed
    | PermanentFailed
    | Cancelled
  {
    predicate IsSkipped() {
      || SkippedAlreadyOwnedByTarget?
      || SkippedNotOwnedBySource?
      || SkippedSharedDrive?
      || SkippedShortcutTarget?
      || SkippedTrashed?
      || SkippedIneligible?
    }

    predicate IsTerminal() {
      Verified? || IsSkipped() || PermanentFailed? || Cancelled?
    }

    predicate IsTransferActive() {
      || Eligible?
      || PendingOwnerRequired?
      || PendingOwnerCreated?
      || AcceptRequired?
      || Accepting?
      || Transferred?
      || Verifying?
      || RetryableFailed?
    }

    predicate IsIntermediateCheckpoint() {
      PendingOwnerCreated? || Accepting? || Transferred? || Verifying?
    }

    /** The domain crate's transition table; every state may also stay where it is. */
    predicate CanTransitionTo(next: ItemState) {
      match this
      case Discovered => next.Eligible? || next == this
      case Eligible =>
        || next.PendingOwnerRequired? || next.Verifying? || next.SkippedAlreadyOwnedByTarget?
        || next.SkippedNotOwnedBySource? || next.SkippedSharedDrive? || next.SkippedTrashed?
        || next.SkippedIneligible? || Failing(next) || next == this
      case PendingOwnerRequired =>
        || next.PendingOwnerCreated? || next.Verifying? || next.SkippedTrashed? || next.SkippedSharedDrive?
        || next.SkippedNotOwnedBySource? || Failing(next) || next == this
      case PendingOwnerCreated =>
        || next.AcceptRequired? || next.Verifying? || next.SkippedTrashed? || next.SkippedSharedDrive?
        || Failing(next) || next == this
      case AcceptRequired => next.Accepting? || next.Verifying? || next.SkippedTrashed? || Failing(next) || next == this
      case Accepting => next.Transferred? || next.Verifying? || next.SkippedTrashed? || Failing(next) || next == this
      case Transferred => next.Verifying? || next.SkippedTrashed? || Failing(next) || next == this
      case Verifying => next.Verified? || next.SkippedTrashed? || Failing(next) || next == this
      case RetryableFailed =>
        || next.PendingOwnerRequired? || next.Verifying? || next.SkippedTrashed? || next.SkippedSharedDrive?
        || next.PermanentFailed? || next.Cancelled? || next == this
      case _ => next == this
    }
  }

  predicate Failing(next: ItemState) {
    next.RetryableFailed? || next.PermanentFailed? || next.Cancelled?
  }

  /** How far along its transfer an item is; one to be tried again is as far as one not begun. */
  function Rank(state: ItemState): Option<nat> {
    match state
    case Discovered => Some(0)
    case Eligible => Some(1)
    case RetryableFailed => Some(1)
    case PendingOwnerRequired => Some(2)
    case PendingOwnerCreated => Some(3)
    case AcceptRequired => Some(4)
    case Accepting => Some(5)
    case Transferred => Some(6)
    case Verifying => Some(7)
    case Verified => Some(8)
    case _ => None
  }

  /** One step further, or from anywhere under way straight to verification. */
  predicate StepsForward(state: ItemState, next: ItemState) {
    && Rank(state).Some? && Rank(next).Some? && !next.RetryableFailed?
    && (Rank(next).value == Rank(state).value + 1
        || (next.Verifying? && 1 <= Rank(state).value < Rank(next).value))
  }

  /** An item under way may turn out to be in the trash at any time, in a shared drive before its acceptance, and to
      belong to somebody else, or to be no matter for a transfer, before anything was asked for. */
  predicate TurnsOutSkipped(state: ItemState, next: ItemState) {
    && state.IsTransferActive() && next.IsSkipped() && !next.SkippedShortcutTarget?
    && (next.SkippedSharedDrive? ==> Rank(state).value <= 3)
    && (next.SkippedNotOwnedBySource? ==> Rank(state).value <= 2 && !state.RetryableFailed?)
    && (next.SkippedAlreadyOwnedByTarget? || next.SkippedIneligible? ==> state.Eligible?)
  }

  predicate FollowsRules(state: ItemState, next: ItemState) {
    || next == state || StepsForward(state, next) || TurnsOutSkipped(state, next)
    || (state.IsTransferActive() && Failing(next))
  }

  lemma RulesBeforeAcceptance(state: ItemState, next: ItemState)
    requires state.Eligible? || state.PendingOwnerRequired? || state.PendingOwnerCreated? || state.RetryableFailed?
    ensures state.CanTransitionTo(next) <==> FollowsRules(state, next)
  {
  }

  lemma RulesFromAcceptance(state: ItemState, next: ItemState)
    requires state.AcceptRequired? || state.Accepting? || state.Transferred? || state.Verifying?
    ensures state.CanTransitionTo(next) <==> FollowsRules(state, next)
  {
  }

  lemma RulesOutside(state: ItemState, next: ItemState)
    requires !state.IsTransferActive()
    ensures state.CanTransitionTo(next) <==> FollowsRules(state, next)
  {
  }

  /** The table by its rules: forward, skipped, or failed or given up while under way. */
  lemma TableByRules(state: ItemState, next: ItemState)
    ensures state.CanTransitionTo(next) <==> FollowsRules(state, next)
  {
    if !state.IsTransferActive() {
      RulesOutside(state, next);
    } else if state.AcceptRequired? || state.Accepting? || state.Transferred? || state.Verifying? {
      RulesFromAcceptance(state, next);
    } else {
      RulesBeforeAcceptance(state, next);
    }
  }

  predicate IsPath(path: seq<ItemState>) {
    path != [] && forall k :: 0 < k < |path| ==> path[k - 1].CanTransitionTo(path[k])
  }

  lemma EdgeKeepsOrder(state: ItemState, next: ItemState)
    requires state.CanTransitionTo(next) && next != state
    ensures !state.IsTerminal()
    ensures
      (next.Verified? ==> state.Verifying?) && (next.Transferred? ==> state.Accepting?)
      && (next.Accepting? ==> state.AcceptRequired?)
  {
  }

  /** Along any path of the table: what is terminal stays, and an item is verified, transferred or being accepted only
      if it was saved before as being verified, as accepting, as ready to accept. */
  lemma {:induction false} PathsKeepTheOrder(path: seq<ItemState>)
    requires IsPath(path)
    ensures
      var last := path[|path| - 1];
      && (path[0].IsTerminal() ==> last == path[0])
      && (last != path[0] ==>
            && (last.Verified? ==> Verifying in path) && (last.Transferred? ==> Accepting in path)
            && (last.Accepting? ==> AcceptRequired in path))
  {
    if |path| > 1 {
      var before := path[..|path| - 1];
      PathsKeepTheOrder(before);
      assert path == before + [path[|path| - 1]];
      var state, last := before[|before| - 1], path[|path| - 1];
      assert state in path && path[0] == before[0];
      if state != last { EdgeKeepsOrder(state, last); }
    }
  }
}
