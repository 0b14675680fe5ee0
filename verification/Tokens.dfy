/** Access tokens of connected accounts: a cache, one lock for each account, and refreshes that run under the lock.
    Every step is what one task does between two awaits; a run is any sequence of steps of any tasks. */
module Tokens {
  import opened Items

  datatype AuthStatus = Connected | TokenRefreshing | ReauthRequired | Disconnected | RemovalPending

  /** Asking for a token, forcing a refresh, or marking the account as needing to sign in again. */
  datatype Kind = Get | Force | Mark

  datatype Stage =
    | Begun
    | Seeking
    | Inserting
    | Waiting(lock: nat)
    | Holding(lock: nat)
    | Checked(lock: nat)
    | Allowed(lock: nat, previous: AuthStatus)
    | Sending(lock: nat, previous: AuthStatus)
    | Received(lock: nat, token: nat)
    | Publishing(lock: nat, token: nat)
    | Recording(lock: nat, token: nat)
    | Restoring(lock: nat, status: AuthStatus)
    | Ended(result: Option<nat>)
  {
    predicate KnowsLock() {
      !Begun? && !Seeking? && !Inserting? && !Ended?
    }

    predicate InLock() {
      KnowsLock() && !Waiting?
    }

    /** On the way to a new token, with the lock held and nothing cached yet. */
    predicate Seeks() {
      Allowed? || Sending? || Received? || Publishing?
    }

    /** Between the decision to refresh and the last write about it. */
    predicate Refreshing() {
      Seeks() || Recording? || Restoring?
    }
  }

  datatype Task = Task(kind: Kind, account: nat, stage: Stage)

  datatype Cached = Cached(token: nat, valid: bool)

  datatype State = State(
    tokens: map<nat, Cached>,
    locks: map<nat, nat>,          // account to lock
    held: map<nat, nat>,           // lock to the task that holds it
    status: map<nat, AuthStatus>,  // the accounts table
    tasks: map<nat, Task>,
    granted: map<nat, nat>         // successful refreshes so far, by account
  )

  datatype Reply = NoCredential | Granted(token: nat) | InvalidGrant | OtherError

  datatype Step =
    | Begin(task: nat, kind: Kind, account: nat)
    | FirstCheck(task: nat)
    | FindLock(task: nat)
    | InsertLock(task: nat, newLock: nat)
    | Acquire(task: nat)
    | Recheck(task: nat)
    | ReadStatus(task: nat)
    | NoteRefreshing(task: nat, applied: bool)
    | Answer(task: nat, reply: Reply)
    | Restore(task: nat, applied: bool)
    | ReadActive(task: nat, readable: bool)
    | InsertToken(task: nat)
    | RecordSignIn(task: nat, applied: bool)
    | SetReauth(task: nat, applied: bool)
    | Invalidate(account: nat)
    | Expire(account: nat)
    | Reconnect(account: nat)

  predicate IsTaskStep(step: Step) {
    !step.Begin? && !step.Invalidate? && !step.Expire? && !step.Reconnect?
  }

  predicate CacheValid(s: State, account: nat) {
    account in s.tokens && s.tokens[account].valid
  }

  function Moved(s: State, t: nat, stage: Stage): State
    requires t in s.tasks
  {
    s.(tasks := s.tasks[t := s.tasks[t].(stage := stage)])
  }

  /** The task ends and lets go of its lock. */
  function Finished(s: State, t: nat, result: Option<nat>): State
    requires t in s.tasks && s.tasks[t].stage.InLock()
  {
    Moved(s, t, Ended(result)).(held := s.held - {s.tasks[t].stage.lock})
  }

  function WithStatus(s: State, account: nat, status: AuthStatus, applied: bool): State {
    if applied && account in s.status then s.(status := s.status[account := status]) else s
  }

  function FirstChecked(s: State, t: nat): State {
    if t !in s.tasks || !s.tasks[t].stage.Begun? then s
    else
      var account := s.tasks[t].account;
      if s.tasks[t].kind.Mark? then Moved(s.(tokens := s.tokens - {account}), t, Seeking)
      else if s.tasks[t].kind.Get? && CacheValid(s, account) then Moved(s, t, Ended(Some(s.tokens[account].token)))
      else Moved(s, t, Seeking)
  }

  function LockFound(s: State, t: nat): State {
    if t !in s.tasks || !s.tasks[t].stage.Seeking? then s
    else if s.tasks[t].account in s.locks then Moved(s, t, Waiting(s.locks[s.tasks[t].account]))
    else Moved(s, t, Inserting)
  }

  function LockInserted(s: State, t: nat, newLock: nat): State {
    if t !in s.tasks || !s.tasks[t].stage.Inserting? then s
    else if s.tasks[t].account in s.locks then Moved(s, t, Waiting(s.locks[s.tasks[t].account]))
    else if newLock in s.locks.Values then s
    else Moved(s.(locks := s.locks[s.tasks[t].account := newLock]), t, Waiting(newLock))
  }

  function Acquired(s: State, t: nat): State {
    if t !in s.tasks || !s.tasks[t].stage.Waiting? || s.tasks[t].stage.lock in s.held then s
    else
      var lock := s.tasks[t].stage.lock;
      Moved(s.(held := s.held[lock := t]), t, Holding(lock))
  }

  function Rechecked(s: State, t: nat): State {
    if t !in s.tasks || !s.tasks[t].stage.Holding? then s
    else
      var account, lock := s.tasks[t].account, s.tasks[t].stage.lock;
      if s.tasks[t].kind.Mark? then Moved(s.(tokens := s.tokens - {account}), t, Checked(lock))
      else if s.tasks[t].kind.Get? && CacheValid(s, account) then Finished(s, t, Some(s.tokens[account].token))
      else Moved(s, t, Checked(lock))
  }

  function StatusRead(s: State, t: nat): State {
    if t !in s.tasks || !s.tasks[t].stage.Checked? || s.tasks[t].kind.Mark? then s
    else
      var account, lock := s.tasks[t].account, s.tasks[t].stage.lock;
      if account !in s.status || s.status[account].Disconnected? || s.status[account].RemovalPending?
         || s.status[account].ReauthRequired?
      then Finished(s, t, None)
      else Moved(s, t, Allowed(lock, s.status[account]))
  }

  function RefreshNoted(s: State, t: nat, applied: bool): State {
    if t !in s.tasks || !s.tasks[t].stage.Allowed? then s
    else
      WithStatus(Moved(s, t, Sending(s.tasks[t].stage.lock, s.tasks[t].stage.previous)), s.tasks[t].account,
                 TokenRefreshing, applied)
  }

  function Answered(s: State, t: nat, reply: Reply): State {
    if t !in s.tasks || !s.tasks[t].stage.Sending? then s
    else
      var account, lock := s.tasks[t].account, s.tasks[t].stage.lock;
      match reply
      case NoCredential => Finished(s, t, None)
      case Granted(token) =>
        Moved(s, t, Received(lock, token))
          .(granted := s.granted[account := (if account in s.granted then s.granted[account] else 0) + 1])
      case InvalidGrant => Moved(s, t, Restoring(lock, ReauthRequired))
      case OtherError => Moved(s, t, Restoring(lock, s.tasks[t].stage.previous))
  }

  function Restored(s: State, t: nat, applied: bool): State {
    if t !in s.tasks || !s.tasks[t].stage.Restoring? then s
    else WithStatus(Finished(s, t, None), s.tasks[t].account, s.tasks[t].stage.status, applied)
  }

  function ActiveRead(s: State, t: nat, readable: bool): State {
    if t !in s.tasks || !s.tasks[t].stage.Received? then s
    else
      var account, lock, token := s.tasks[t].account, s.tasks[t].stage.lock, s.tasks[t].stage.token;
      if readable && account in s.status && !s.status[account].Disconnected? then Moved(s, t, Publishing(lock, token))
      else Finished(s, t, Some(token))
  }

  function TokenInserted(s: State, t: nat): State {
    if t !in s.tasks || !s.tasks[t].stage.Publishing? then s
    else
      var lock, token := s.tasks[t].stage.lock, s.tasks[t].stage.token;
      Moved(s.(tokens := s.tokens[s.tasks[t].account := Cached(token, true)]), t, Recording(lock, token))
  }

  function SignInRecorded(s: State, t: nat, applied: bool): State {
    if t !in s.tasks || !s.tasks[t].stage.Recording? then s
    else WithStatus(Finished(s, t, Some(s.tasks[t].stage.token)), s.tasks[t].account, Connected, applied)
  }

  function ReauthSet(s: State, t: nat, applied: bool): State {
    if t !in s.tasks || !s.tasks[t].stage.Checked? || !s.tasks[t].kind.Mark? then s
    else WithStatus(Finished(s, t, None), s.tasks[t].account, ReauthRequired, applied)
  }

  /** What a step does; one that is not that task's next step leaves everything as it was. */
  function Next(s: State, step: Step): State {
    match step
    case Begin(t, kind, account) =>
      if t in s.tasks then s else s.(tasks := s.tasks[t := Task(kind, account, Begun)])
    case FirstCheck(t) => FirstChecked(s, t)
    case FindLock(t) => LockFound(s, t)
    case InsertLock(t, newLock) => LockInserted(s, t, newLock)
    case Acquire(t) => Acquired(s, t)
    case Recheck(t) => Rechecked(s, t)
    case ReadStatus(t) => StatusRead(s, t)
    case NoteRefreshing(t, applied) => RefreshNoted(s, t, applied)
    case Answer(t, reply) => Answered(s, t, reply)
    case Restore(t, applied) => Restored(s, t, applied)
    case ReadActive(t, readable) => ActiveRead(s, t, readable)
    case InsertToken(t) => TokenInserted(s, t)
    case RecordSignIn(t, applied) => SignInRecorded(s, t, applied)
    case SetReauth(t, applied) => ReauthSet(s, t, applied)
    case Invalidate(account) => s.(tokens := s.tokens - {account})
    case Expire(account) =>
      if account in s.tokens then s.(tokens := s.tokens[account := s.tokens[account].(valid := false)]) else s
    case Reconnect(account) =>
      if account in s.status then s.(status := s.status[account := Connected]) else s
  }

  // ---------------------------------------------------------------- what every run keeps

  /** Each account has its own lock, and every task of the account uses that one. */
  predicate OneLockEach(tasks: map<nat, Task>, locks: map<nat, nat>) {
    && (forall a, b :: a in locks && b in locks && locks[a] == locks[b] ==> a == b)
    && (forall t :: t in tasks && tasks[t].stage.KnowsLock() ==>
          tasks[t].account in locks && locks[tasks[t].account] == tasks[t].stage.lock)
  }

  /** A task past its lock is the one the lock names, and a held lock names such a task. */
  predicate LocksExclude(tasks: map<nat, Task>, held: map<nat, nat>) {
    && (forall t :: t in tasks && tasks[t].stage.InLock() ==>
          tasks[t].stage.lock in held && held[tasks[t].stage.lock] == t)
    && (forall l :: l in held ==> held[l] in tasks && tasks[held[l]].stage.InLock() && tasks[held[l]].stage.lock == l)
  }

  /** A task that asked for a token refreshes only while no valid one is cached; a marking task never refreshes and
      has emptied the cache by the time it writes. */
  predicate NoNeedlessRefresh(tasks: map<nat, Task>, tokens: map<nat, Cached>) {
    forall t :: t in tasks ==> TaskFits(tasks[t], tokens)
  }

  predicate TaskFits(task: Task, tokens: map<nat, Cached>) {
    && (task.kind.Get? && (task.stage.Checked? || task.stage.Seeks()) ==>
          !(task.account in tokens && tokens[task.account].valid))
    && (task.kind.Mark? ==> !task.stage.Refreshing())
    && (task.kind.Mark? && task.stage.Checked? ==> task.account !in tokens)
  }

  predicate Inv(s: State) {
    OneLockEach(s.tasks, s.locks) && LocksExclude(s.tasks, s.held) && NoNeedlessRefresh(s.tasks, s.tokens)
  }

  /** No two tasks of one account are past its lock at once. */
  lemma OneAtATime(s: State, t: nat, u: nat)
    requires Inv(s) && t in s.tasks && u in s.tasks && s.tasks[t].account == s.tasks[u].account
    requires s.tasks[t].stage.InLock() && s.tasks[u].stage.InLock()
    ensures t == u
  {
  }

  // Tasks move in three ways: outside the lock, into it, and within it or out of it.

  lemma MovesOutside(s: State, locks: map<nat, nat>, t: nat, stage: Stage)
    requires OneLockEach(s.tasks, locks) && LocksExclude(s.tasks, s.held) && t in s.tasks
    requires !s.tasks[t].stage.InLock() && !stage.InLock()
    requires stage.Waiting? ==> s.tasks[t].account in locks && locks[s.tasks[t].account] == stage.lock
    ensures OneLockEach(Moved(s, t, stage).tasks, locks) && LocksExclude(Moved(s, t, stage).tasks, s.held)
  {
  }

  lemma MovesInside(s: State, t: nat, stage: Stage)
    requires OneLockEach(s.tasks, s.locks) && LocksExclude(s.tasks, s.held) && t in s.tasks
    requires s.tasks[t].stage.InLock() && stage.InLock() && stage.lock == s.tasks[t].stage.lock
    ensures OneLockEach(Moved(s, t, stage).tasks, s.locks) && LocksExclude(Moved(s, t, stage).tasks, s.held)
  {
  }

  lemma MovesIn(s: State, t: nat)
    requires OneLockEach(s.tasks, s.locks) && LocksExclude(s.tasks, s.held) && t in s.tasks
    requires s.tasks[t].stage.Waiting? && s.tasks[t].stage.lock !in s.held
    ensures
      var n := Next(s, Acquire(t));
      OneLockEach(n.tasks, n.locks) && LocksExclude(n.tasks, n.held)
  {
  }

  lemma MovesOut(s: State, t: nat, result: Option<nat>)
    requires OneLockEach(s.tasks, s.locks) && LocksExclude(s.tasks, s.held) && t in s.tasks && s.tasks[t].stage.InLock()
    ensures
      var n := Finished(s, t, result);
      OneLockEach(n.tasks, n.locks) && LocksExclude(n.tasks, n.held)
  {
  }

  predicate LocksSound(s: State) {
    OneLockEach(s.tasks, s.locks) && LocksExclude(s.tasks, s.held)
  }

  /** The step of a task that holds its lock: it stays at its lock or ends and lets go. */
  predicate StaysOrEnds(s: State, n: State, t: nat) {
    || (n.tasks == s.tasks && n.held == s.held && n.locks == s.locks)
    || (t in s.tasks && s.tasks[t].stage.InLock() && t in n.tasks && n.locks == s.locks
        && (var stage := n.tasks[t].stage;
            || (stage.InLock() && stage.lock == s.tasks[t].stage.lock
                && n.tasks == Moved(s, t, stage).tasks && n.held == s.held)
            || (stage.Ended? && n.tasks == Moved(s, t, stage).tasks && n.held == s.held - {s.tasks[t].stage.lock})))
  }

  lemma RecheckMarkShape(s: State, t: nat)
    requires t in s.tasks && s.tasks[t].kind.Mark?
    ensures StaysOrEnds(s, Rechecked(s, t), t)
  {
  }

  lemma RecheckAskShape(s: State, t: nat)
    requires t in s.tasks && !s.tasks[t].kind.Mark?
    ensures StaysOrEnds(s, Rechecked(s, t), t)
  {
  }

  lemma RecheckShape(s: State, t: nat)
    ensures StaysOrEnds(s, Rechecked(s, t), t)
  {
    if t in s.tasks {
      if s.tasks[t].kind.Mark? { RecheckMarkShape(s, t); } else { RecheckAskShape(s, t); }
    }
  }

  lemma ReadingShape(s: State, t: nat)
    ensures StaysOrEnds(s, StatusRead(s, t), t)
  {
  }

  lemma NotingShape(s: State, t: nat, applied: bool)
    ensures StaysOrEnds(s, RefreshNoted(s, t, applied), t)
  {
  }

  lemma MarkingShape(s: State, t: nat, applied: bool)
    ensures StaysOrEnds(s, ReauthSet(s, t, applied), t)
  {
  }

  lemma StayingShape(s: State, n: State, t: nat, stage: Stage)
    requires t in s.tasks && s.tasks[t].stage.InLock() && stage.InLock() && stage.lock == s.tasks[t].stage.lock
    requires n.tasks == Moved(s, t, stage).tasks && n.held == s.held && n.locks == s.locks
    ensures StaysOrEnds(s, n, t)
  {
  }

  lemma AnsweringShape(s: State, t: nat, reply: Reply)
    ensures StaysOrEnds(s, Answered(s, t, reply), t)
  {
    if t in s.tasks && s.tasks[t].stage.Sending? && !reply.NoCredential? {
      var n := Answered(s, t, reply);
      StayingShape(s, n, t, n.tasks[t].stage);
    }
  }

  lemma RestoringShape(s: State, t: nat, applied: bool)
    ensures StaysOrEnds(s, Restored(s, t, applied), t)
  {
  }

  lemma ActiveShape(s: State, t: nat, readable: bool)
    ensures StaysOrEnds(s, ActiveRead(s, t, readable), t)
  {
  }

  lemma InsertingShape(s: State, t: nat)
    ensures StaysOrEnds(s, TokenInserted(s, t), t)
  {
  }

  lemma RecordingShape(s: State, t: nat, applied: bool)
    ensures StaysOrEnds(s, SignInRecorded(s, t, applied), t)
  {
  }

  predicate IsLockedStep(step: Step) {
    || step.Recheck? || step.ReadStatus? || step.NoteRefreshing? || step.Answer? || step.Restore? || step.ReadActive?
    || step.InsertToken? || step.RecordSignIn? || step.SetReauth?
  }

  lemma LockedShape(s: State, step: Step)
    requires IsLockedStep(step)
    ensures StaysOrEnds(s, Next(s, step), step.task)
  {
    match step
    case Recheck(t) => RecheckShape(s, t);
    case ReadStatus(t) => ReadingShape(s, t);
    case NoteRefreshing(t, applied) => NotingShape(s, t, applied);
    case SetReauth(t, applied) => MarkingShape(s, t, applied);
    case Answer(t, reply) => AnsweringShape(s, t, reply);
    case Restore(t, applied) => RestoringShape(s, t, applied);
    case ReadActive(t, readable) => ActiveShape(s, t, readable);
    case InsertToken(t) => InsertingShape(s, t);
    case RecordSignIn(t, applied) => RecordingShape(s, t, applied);
  }

  lemma ShapeKeepsLocks(s: State, n: State, t: nat)
    requires LocksSound(s) && StaysOrEnds(s, n, t)
    ensures LocksSound(n)
  {
    if n.tasks != s.tasks {
      var stage := n.tasks[t].stage;
      if stage.Ended? { MovesOut(s, t, stage.result); } else { MovesInside(s, t, stage); }
    }
  }

  lemma FirstCheckKeepsLocks(s: State, t: nat)
    requires LocksSound(s)
    ensures LocksSound(FirstChecked(s, t))
  {
    if t in s.tasks && s.tasks[t].stage.Begun? {
      if s.tasks[t].kind.Get? && CacheValid(s, s.tasks[t].account) {
        MovesOutside(s, s.locks, t, Ended(Some(s.tokens[s.tasks[t].account].token)));
      } else {
        MovesOutside(s, s.locks, t, Seeking);
      }
    }
  }

  lemma FindingKeepsLocks(s: State, t: nat)
    requires LocksSound(s)
    ensures LocksSound(LockFound(s, t))
  {
    if t in s.tasks && s.tasks[t].stage.Seeking? { MovesOutside(s, s.locks, t, LockFound(s, t).tasks[t].stage); }
  }

  /** Getting or inserting a lock under the write lock of the table: two tasks never insert two for one account. */
  lemma InsertingKeepsLocks(s: State, t: nat, newLock: nat)
    requires LocksSound(s)
    ensures LocksSound(LockInserted(s, t, newLock))
  {
    if t in s.tasks && s.tasks[t].stage.Inserting? {
      var account := s.tasks[t].account;
      if account in s.locks {
        MovesOutside(s, s.locks, t, Waiting(s.locks[account]));
      } else if newLock !in s.locks.Values {
        NewLockKeeps(s, account, newLock);
        MovesOutside(s, s.locks[account := newLock], t, Waiting(newLock));
      }
    }
  }

  lemma NewLockKeeps(s: State, account: nat, newLock: nat)
    requires OneLockEach(s.tasks, s.locks) && account !in s.locks && newLock !in s.locks.Values
    ensures OneLockEach(s.tasks, s.locks[account := newLock])
  {
  }

  lemma StepKeepsLocks(s: State, step: Step)
    requires LocksSound(s)
    ensures LocksSound(Next(s, step))
  {
    match step
    case Begin(t, kind, account) =>
    case FirstCheck(t) => FirstCheckKeepsLocks(s, t);
    case FindLock(t) => FindingKeepsLocks(s, t);
    case InsertLock(t, newLock) => InsertingKeepsLocks(s, t, newLock);
    case Acquire(t) => if Acquired(s, t) != s { MovesIn(s, t); }
    case Invalidate(_) =>
    case Expire(_) =>
    case Reconnect(_) =>
    case _ =>
      LockedShape(s, step);
      ShapeKeepsLocks(s, Next(s, step), step.task);
  }

  // ---------------------------------------------------------------- refreshes only when needed

  /** No token becomes cached or valid that was not. */
  predicate Fewer(less: map<nat, Cached>, tokens: map<nat, Cached>) {
    forall a :: a in less ==> a in tokens && (less[a].valid ==> tokens[a].valid)
  }

  lemma MoveFits(s: State, t: nat, stage: Stage, tokens: map<nat, Cached>)
    requires NoNeedlessRefresh(s.tasks, s.tokens) && Fewer(tokens, s.tokens) && t in s.tasks
    requires TaskFits(s.tasks[t].(stage := stage), tokens)
    ensures NoNeedlessRefresh(Moved(s, t, stage).tasks, tokens)
  {
  }

  /** The new token is cached while the lock is held, so no other task of the account is on its way to one. */
  lemma InsertFits(s: State, t: nat)
    requires Inv(s) && t in s.tasks && s.tasks[t].stage.Publishing?
    ensures NoNeedlessRefresh(TokenInserted(s, t).tasks, TokenInserted(s, t).tokens)
  {
    var n := TokenInserted(s, t);
    forall u | u in n.tasks ensures TaskFits(n.tasks[u], n.tokens) {
      if u != t && s.tasks[u].account == s.tasks[t].account && s.tasks[u].stage.InLock() { OneAtATime(s, t, u); }
    }
  }

  predicate Needed(s: State) {
    NoNeedlessRefresh(s.tasks, s.tokens)
  }

  lemma FirstCheckFits(s: State, t: nat)
    requires Inv(s)
    ensures Needed(FirstChecked(s, t))
  {
    if t in s.tasks && s.tasks[t].stage.Begun? {
      MoveFits(s, t, FirstChecked(s, t).tasks[t].stage, FirstChecked(s, t).tokens);
    }
  }

  lemma RecheckFits(s: State, t: nat)
    requires Inv(s)
    ensures Needed(Rechecked(s, t))
  {
    if t in s.tasks && s.tasks[t].stage.Holding? {
      MoveFits(s, t, Rechecked(s, t).tasks[t].stage, Rechecked(s, t).tokens);
    }
  }

  lemma FindingFits(s: State, t: nat)
    requires Inv(s)
    ensures Needed(LockFound(s, t))
  {
    if t in s.tasks && s.tasks[t].stage.Seeking? { MoveFits(s, t, LockFound(s, t).tasks[t].stage, s.tokens); }
  }

  lemma LockInsertionFits(s: State, t: nat, newLock: nat)
    requires Inv(s)
    ensures Needed(LockInserted(s, t, newLock))
  {
    if t in s.tasks && s.tasks[t].stage.Inserting? {
      MoveFits(s, t, LockInserted(s, t, newLock).tasks[t].stage, s.tokens);
    }
  }

  lemma AcquiringFits(s: State, t: nat)
    requires Inv(s)
    ensures Needed(Acquired(s, t))
  {
    if t in s.tasks && s.tasks[t].stage.Waiting? { MoveFits(s, t, Holding(s.tasks[t].stage.lock), s.tokens); }
  }

  lemma ReadingFits(s: State, t: nat)
    requires Inv(s)
    ensures Needed(StatusRead(s, t))
  {
    if t in s.tasks && s.tasks[t].stage.Checked? { MoveFits(s, t, StatusRead(s, t).tasks[t].stage, s.tokens); }
  }

  lemma NotingFits(s: State, t: nat, applied: bool)
    requires Inv(s)
    ensures Needed(RefreshNoted(s, t, applied))
  {
    if t in s.tasks && s.tasks[t].stage.Allowed? {
      MoveFits(s, t, Sending(s.tasks[t].stage.lock, s.tasks[t].stage.previous), s.tokens);
    }
  }

  lemma MarkingFits(s: State, t: nat, applied: bool)
    requires Inv(s)
    ensures Needed(ReauthSet(s, t, applied))
  {
    if t in s.tasks && s.tasks[t].stage.Checked? { MoveFits(s, t, Ended(None), s.tokens); }
  }

  lemma AnsweringFits(s: State, t: nat, reply: Reply)
    requires Inv(s)
    ensures Needed(Answered(s, t, reply))
  {
    if t in s.tasks && s.tasks[t].stage.Sending? { MoveFits(s, t, Answered(s, t, reply).tasks[t].stage, s.tokens); }
  }

  lemma RestoringFits(s: State, t: nat, applied: bool)
    requires Inv(s)
    ensures Needed(Restored(s, t, applied))
  {
    if t in s.tasks && s.tasks[t].stage.Restoring? { MoveFits(s, t, Ended(None), s.tokens); }
  }

  lemma ActiveFits(s: State, t: nat, readable: bool)
    requires Inv(s)
    ensures Needed(ActiveRead(s, t, readable))
  {
    if t in s.tasks && s.tasks[t].stage.Received? {
      MoveFits(s, t, ActiveRead(s, t, readable).tasks[t].stage, s.tokens);
    }
  }

  lemma RecordingFits(s: State, t: nat, applied: bool)
    requires Inv(s)
    ensures Needed(SignInRecorded(s, t, applied))
  {
    if t in s.tasks && s.tasks[t].stage.Recording? { MoveFits(s, t, Ended(Some(s.tasks[t].stage.token)), s.tokens); }
  }

  lemma OthersKeepNeed(s: State, step: Step)
    requires Inv(s) && !IsTaskStep(step)
    ensures Needed(Next(s, step))
  {
  }

  lemma LockedStepKeepsNeed(s: State, step: Step)
    requires Inv(s) && IsLockedStep(step)
    ensures Needed(Next(s, step))
  {
    match step
    case Recheck(t) => RecheckFits(s, t);
    case ReadStatus(t) => ReadingFits(s, t);
    case NoteRefreshing(t, applied) => NotingFits(s, t, applied);
    case SetReauth(t, applied) => MarkingFits(s, t, applied);
    case Answer(t, reply) => AnsweringFits(s, t, reply);
    case Restore(t, applied) => RestoringFits(s, t, applied);
    case ReadActive(t, readable) => ActiveFits(s, t, readable);
    case InsertToken(t) => if t in s.tasks && s.tasks[t].stage.Publishing? { InsertFits(s, t); }
    case RecordSignIn(t, applied) => RecordingFits(s, t, applied);
  }

  lemma StepKeepsNeed(s: State, step: Step)
    requires Inv(s)
    ensures Needed(Next(s, step))
  {
    if !IsTaskStep(step) {
      OthersKeepNeed(s, step);
    } else if IsLockedStep(step) {
      LockedStepKeepsNeed(s, step);
    } else {
      match step
      case FirstCheck(t) => FirstCheckFits(s, t);
      case FindLock(t) => FindingFits(s, t);
      case InsertLock(t, newLock) => LockInsertionFits(s, t, newLock);
      case Acquire(t) => AcquiringFits(s, t);
    }
  }

  lemma StepKeepsInv(s: State, step: Step)
    requires Inv(s)
    ensures Inv(Next(s, step))
  {
    StepKeepsLocks(s, step);
    StepKeepsNeed(s, step);
  }

  // ---------------------------------------------------------------- after marking

  /** The account must sign in again: nothing is cached for it and no refresh of it is under way. */
  predicate Barred(s: State, account: nat) {
    && account in s.status && s.status[account].ReauthRequired?
    && account !in s.tokens
    && forall t :: t in s.tasks && s.tasks[t].account == account ==> !s.tasks[t].stage.Refreshing()
  }

  /** Marking an account, once it succeeds, bars it, even against a refresh that was in flight when it began. */
  lemma MarkingBars(s: State, t: nat)
    requires Inv(s) && t in s.tasks && s.tasks[t].kind.Mark? && s.tasks[t].stage.Checked?
    requires s.tasks[t].account in s.status
    ensures Barred(ReauthSet(s, t, true), s.tasks[t].account)
  {
    var n := ReauthSet(s, t, true);
    forall u | u in n.tasks && n.tasks[u].account == s.tasks[t].account ensures !n.tasks[u].stage.Refreshing() {
      if u != t && s.tasks[u].stage.InLock() { OneAtATime(s, t, u); }
    }
  }

  ghost predicate SameBut<T>(a: map<nat, T>, b: map<nat, T>, key: nat) {
    forall x :: x != key ==> (x in a <==> x in b) && (x in a ==> b[x] == a[x])
  }

  /** A task's step moves that task, and touches the cache and the accounts table only at its own account. */
  ghost predicate TaskEffect(s: State, n: State, t: nat) {
    || n == s
    || (t in s.tasks && t in n.tasks && n.tasks == Moved(s, t, n.tasks[t].stage).tasks
        && SameBut(s.tokens, n.tokens, s.tasks[t].account) && SameBut(s.status, n.status, s.tasks[t].account)
        && SameBut(s.granted, n.granted, s.tasks[t].account))
  }

  lemma EmptyingActs(s: State, t: nat, stage: Stage)
    requires t in s.tasks
    ensures TaskEffect(s, Moved(s.(tokens := s.tokens - {s.tasks[t].account}), t, stage), t)
  {
  }

  lemma FirstCheckActs(s: State, t: nat)
    ensures TaskEffect(s, FirstChecked(s, t), t)
  {
    if t in s.tasks && s.tasks[t].stage.Begun? && s.tasks[t].kind.Mark? { EmptyingActs(s, t, Seeking); }
  }

  lemma RecheckActs(s: State, t: nat)
    ensures TaskEffect(s, Rechecked(s, t), t)
  {
    if t in s.tasks && s.tasks[t].stage.Holding? && s.tasks[t].kind.Mark? {
      EmptyingActs(s, t, Checked(s.tasks[t].stage.lock));
    }
  }

  lemma FindingActs(s: State, t: nat)
    ensures TaskEffect(s, LockFound(s, t), t)
  {
  }

  lemma LockInsertionActs(s: State, t: nat, newLock: nat)
    ensures TaskEffect(s, LockInserted(s, t, newLock), t)
  {
  }

  lemma AcquiringActs(s: State, t: nat)
    ensures TaskEffect(s, Acquired(s, t), t)
  {
  }

  lemma ReadingActs(s: State, t: nat)
    ensures TaskEffect(s, StatusRead(s, t), t)
  {
  }

  lemma NotingActs(s: State, t: nat, applied: bool)
    ensures TaskEffect(s, RefreshNoted(s, t, applied), t)
  {
  }

  lemma MarkingActs(s: State, t: nat, applied: bool)
    ensures TaskEffect(s, ReauthSet(s, t, applied), t)
  {
  }

  lemma AnsweringActs(s: State, t: nat, reply: Reply)
    ensures TaskEffect(s, Answered(s, t, reply), t)
  {
  }

  lemma RestoringActs(s: State, t: nat, applied: bool)
    ensures TaskEffect(s, Restored(s, t, applied), t)
  {
  }

  lemma ActiveActs(s: State, t: nat, readable: bool)
    ensures TaskEffect(s, ActiveRead(s, t, readable), t)
  {
  }

  lemma InsertingActs(s: State, t: nat)
    ensures TaskEffect(s, TokenInserted(s, t), t)
  {
  }

  lemma RecordingActs(s: State, t: nat, applied: bool)
    ensures TaskEffect(s, SignInRecorded(s, t, applied), t)
  {
  }

  lemma TaskStepsAct(s: State, step: Step)
    requires IsTaskStep(step)
    ensures TaskEffect(s, Next(s, step), step.task)
  {
    match step
    case FirstCheck(t) => FirstCheckActs(s, t);
    case Recheck(t) => RecheckActs(s, t);
    case FindLock(t) => FindingActs(s, t);
    case InsertLock(t, newLock) => LockInsertionActs(s, t, newLock);
    case Acquire(t) => AcquiringActs(s, t);
    case ReadStatus(t) => ReadingActs(s, t);
    case NoteRefreshing(t, applied) => NotingActs(s, t, applied);
    case SetReauth(t, applied) => MarkingActs(s, t, applied);
    case Answer(t, reply) => AnsweringActs(s, t, reply);
    case Restore(t, applied) => RestoringActs(s, t, applied);
    case ReadActive(t, readable) => ActiveActs(s, t, readable);
    case InsertToken(t) => InsertingActs(s, t);
    case RecordSignIn(t, applied) => RecordingActs(s, t, applied);
  }

  predicate NoNewToken(s: State, n: State, account: nat) {
    forall t ::
      (t in n.tasks && n.tasks[t].account == account && n.tasks[t].stage.Ended? && n.tasks[t].stage.result.Some?) ==>
        t in s.tasks && s.tasks[t] == n.tasks[t]
  }

  /** The account is still barred as far as this task goes, and the task has not ended with a token. */
  predicate StillBarred(s: State, n: State, t: nat, account: nat) {
    && account in n.status && n.status[account].ReauthRequired? && account !in n.tokens
    && t in s.tasks && t in n.tasks && !n.tasks[t].stage.Refreshing()
    && (n.tasks[t] == s.tasks[t] || !(n.tasks[t].stage.Ended? && n.tasks[t].stage.result.Some?))
  }

  lemma BarredCheck(s: State, t: nat, account: nat)
    requires Barred(s, account) && t in s.tasks && s.tasks[t].account == account
    ensures StillBarred(s, FirstChecked(s, t), t, account)
  {
  }

  lemma BarredRecheck(s: State, t: nat, account: nat)
    requires Barred(s, account) && t in s.tasks && s.tasks[t].account == account
    ensures StillBarred(s, Rechecked(s, t), t, account)
  {
  }

  lemma BarredRead(s: State, t: nat, account: nat)
    requires Barred(s, account) && t in s.tasks && s.tasks[t].account == account
    ensures StillBarred(s, StatusRead(s, t), t, account)
  {
  }

  lemma BarredMark(s: State, t: nat, applied: bool, account: nat)
    requires Barred(s, account) && t in s.tasks && s.tasks[t].account == account
    ensures StillBarred(s, ReauthSet(s, t, applied), t, account)
  {
  }

  lemma BarredFinding(s: State, t: nat, account: nat)
    requires Barred(s, account) && t in s.tasks && s.tasks[t].account == account
    ensures StillBarred(s, LockFound(s, t), t, account)
  {
  }

  lemma BarredInserting(s: State, t: nat, newLock: nat, account: nat)
    requires Barred(s, account) && t in s.tasks && s.tasks[t].account == account
    ensures StillBarred(s, LockInserted(s, t, newLock), t, account)
  {
  }

  lemma BarredAcquiring(s: State, t: nat, account: nat)
    requires Barred(s, account) && t in s.tasks && s.tasks[t].account == account
    ensures StillBarred(s, Acquired(s, t), t, account)
  {
  }

  /** No task of a barred account is anywhere a refresh step could take it on. */
  lemma BarredRefreshStep(s: State, step: Step, account: nat)
    requires step.NoteRefreshing? || step.Answer? || step.Restore? || step.ReadActive? || step.InsertToken?
             || step.RecordSignIn?
    requires Barred(s, account) && step.task in s.tasks && s.tasks[step.task].account == account
    ensures StillBarred(s, Next(s, step), step.task, account)
  {
    assert Next(s, step) == s;
  }

  lemma BarredTaskStep(s: State, step: Step, account: nat)
    requires Barred(s, account) && IsTaskStep(step)
    requires step.task in s.tasks && s.tasks[step.task].account == account
    ensures StillBarred(s, Next(s, step), step.task, account)
  {
    match step
    case FirstCheck(t) => BarredCheck(s, t, account);
    case Recheck(t) => BarredRecheck(s, t, account);
    case ReadStatus(t) => BarredRead(s, t, account);
    case SetReauth(t, applied) => BarredMark(s, t, applied, account);
    case FindLock(t) => BarredFinding(s, t, account);
    case InsertLock(t, newLock) => BarredInserting(s, t, newLock, account);
    case Acquire(t) => BarredAcquiring(s, t, account);
    case _ => BarredRefreshStep(s, step, account);
  }

  lemma BarredBeginning(s: State, t: nat, kind: Kind, other: nat, account: nat)
    requires Barred(s, account)
    ensures Barred(Next(s, Begin(t, kind, other)), account)
    ensures NoNewToken(s, Next(s, Begin(t, kind, other)), account)
  {
  }

  /** A change of the cache or the accounts table that gives this account neither a token nor another status. */
  lemma BarredTables(s: State, n: State, account: nat)
    requires Barred(s, account) && n.tasks == s.tasks && account !in n.tokens
    requires account in n.status && n.status[account].ReauthRequired?
    ensures Barred(n, account) && NoNewToken(s, n, account)
  {
  }

  lemma BarredOtherwise(s: State, step: Step, account: nat)
    requires Barred(s, account) && step != Reconnect(account) && !IsTaskStep(step)
    ensures Barred(Next(s, step), account)
    ensures NoNewToken(s, Next(s, step), account)
  {
    match step
    case Begin(t, kind, other) => BarredBeginning(s, t, kind, other, account);
    case _ => BarredTables(s, Next(s, step), account);
  }

  /** Neither a step of one of the account's tasks nor any other brings a token back, short of reconnecting. */
  lemma BarredStays(s: State, step: Step, account: nat)
    requires Barred(s, account) && step != Reconnect(account)
    ensures Barred(Next(s, step), account)
    ensures NoNewToken(s, Next(s, step), account)
  {
    if IsTaskStep(step) {
      TaskStepsAct(s, step);
      if step.task in s.tasks && s.tasks[step.task].account == account { BarredTaskStep(s, step, account); }
      EffectKeepsBarred(s, Next(s, step), step.task, account);
    } else {
      BarredOtherwise(s, step, account);
    }
  }

  lemma EffectKeepsBarred(s: State, n: State, t: nat, account: nat)
    requires Barred(s, account) && TaskEffect(s, n, t)
    requires t in s.tasks && s.tasks[t].account == account ==> StillBarred(s, n, t, account)
    ensures Barred(n, account) && NoNewToken(s, n, account)
  {
  }

  function Run(s: State, steps: seq<Step>): State {
    if steps == [] then s else Next(Run(s, steps[..|steps| - 1]), steps[|steps| - 1])
  }

  lemma {:induction false} RunKeepsInv(s: State, steps: seq<Step>)
    requires Inv(s)
    ensures Inv(Run(s, steps))
  {
    if steps != [] {
      RunKeepsInv(s, steps[..|steps| - 1]);
      StepKeepsInv(Run(s, steps[..|steps| - 1]), steps[|steps| - 1]);
    }
  }

  /** Once an account is barred, no task of it, begun before or after, obtains a token until it reconnects. */
  lemma {:induction false} NoTokenUntilReconnected(s: State, steps: seq<Step>, account: nat)
    requires Inv(s) && Barred(s, account) && Reconnect(account) !in steps
    ensures Barred(Run(s, steps), account) && NoNewToken(s, Run(s, steps), account)
  {
    if steps != [] {
      var before := steps[..|steps| - 1];
      NoTokenUntilReconnected(s, before, account);
      RunKeepsInv(s, before);
      BarredStays(Run(s, before), steps[|steps| - 1], account);
    }
  }

  // ---------------------------------------------------------------- one refresh serves all

  function Grants(s: State, account: nat): nat {
    if account in s.granted then s.granted[account] else 0
  }

  /** A valid token is cached, or a task has received one that is about to be. */
  predicate Served(s: State, account: nat) {
    CacheValid(s, account) || exists t :: t in s.tasks && s.tasks[t].account == account && HasToken(s.tasks[t].stage)
  }

  predicate HasToken(stage: Stage) {
    stage.Received? || stage.Publishing?
  }

  /** Only ordinary requests of a connected account are about. */
  predicate OnlyGets(s: State, account: nat) {
    && account in s.status && !s.status[account].Disconnected?
    && forall t :: t in s.tasks && s.tasks[t].account == account ==>
         && s.tasks[t].kind.Get?
         && CarriesOn(s.tasks[t].stage)
  }

  /** The task will not write that the account is disconnected. */
  predicate CarriesOn(stage: Stage) {
    && (stage.Allowed? || stage.Sending? ==> !stage.previous.Disconnected?)
    && (stage.Restoring? ==> !stage.status.Disconnected?)
  }

  /** The step neither takes the account's token away nor forces a refresh, and the account's row can be read. */
  predicate Calm(s: State, step: Step, account: nat) {
    && step != Expire(account) && step != Invalidate(account)
    && (step.Begin? && step.account == account ==> step.kind.Get?)
    && (step.ReadActive? && step.task in s.tasks && s.tasks[step.task].account == account ==> step.readable)
  }

  predicate StaysCalm(s: State, steps: seq<Step>, account: nat) {
    steps == []
    || (StaysCalm(s, steps[..|steps| - 1], account)
        && Calm(Run(s, steps[..|steps| - 1]), steps[|steps| - 1], account))
  }

  /** How many more refreshes of the account may still succeed: none when one has, else one. */
  function Budget(s: State, account: nat): nat {
    Grants(s, account) + if Served(s, account) then 0 else 1
  }

  /** What a step comes to for one account's requests. */
  predicate Spends(s: State, n: State, account: nat) {
    OnlyGets(n, account) && Budget(n, account) <= Budget(s, account)
  }

  lemma ElsewhereSpendsNothing(s: State, n: State, t: nat, account: nat)
    requires OnlyGets(s, account) && TaskEffect(s, n, t) && (t in s.tasks ==> s.tasks[t].account != account)
    ensures Spends(s, n, account)
  {
    if Served(s, account) && !CacheValid(s, account) {
      var u :| u in s.tasks && s.tasks[u].account == account && HasToken(s.tasks[u].stage);
      assert n.tasks[u] == s.tasks[u];
    }
  }

  /** A step of a task without a token, or that keeps its token, leaves who is served as it was. */
  lemma MovingSpendsNothing(s: State, n: State, t: nat, account: nat)
    requires OnlyGets(s, account) && t in s.tasks && s.tasks[t].account == account
    requires t in n.tasks && n.tasks == Moved(s, t, n.tasks[t].stage).tasks
    requires HasToken(s.tasks[t].stage) ==> HasToken(n.tasks[t].stage)
    requires n.tokens == s.tokens && n.granted == s.granted
    requires account in n.status && !n.status[account].Disconnected? && CarriesOn(n.tasks[t].stage)
    ensures Spends(s, n, account)
  {
    if Served(s, account) && !CacheValid(s, account) {
      var u :| u in s.tasks && s.tasks[u].account == account && HasToken(s.tasks[u].stage);
      assert HasToken(n.tasks[u].stage) && n.tasks[u].account == account;
    }
  }

  lemma FirstCheckSpendsNothing(s: State, t: nat, account: nat)
    requires OnlyGets(s, account) && t in s.tasks && s.tasks[t].account == account
    ensures Spends(s, FirstChecked(s, t), account)
  {
    if s.tasks[t].stage.Begun? { MovingSpendsNothing(s, FirstChecked(s, t), t, account); }
  }

  lemma RecheckSpendsNothing(s: State, t: nat, account: nat)
    requires OnlyGets(s, account) && t in s.tasks && s.tasks[t].account == account
    ensures Spends(s, Rechecked(s, t), account)
  {
    if s.tasks[t].stage.Holding? { MovingSpendsNothing(s, Rechecked(s, t), t, account); }
  }

  lemma ReadingSpendsNothing(s: State, t: nat, account: nat)
    requires OnlyGets(s, account) && t in s.tasks && s.tasks[t].account == account
    ensures Spends(s, StatusRead(s, t), account)
  {
    if s.tasks[t].stage.Checked? { MovingSpendsNothing(s, StatusRead(s, t), t, account); }
  }

  lemma FindingSpendsNothing(s: State, t: nat, account: nat)
    requires OnlyGets(s, account) && t in s.tasks && s.tasks[t].account == account
    ensures Spends(s, LockFound(s, t), account)
  {
    if s.tasks[t].stage.Seeking? { MovingSpendsNothing(s, LockFound(s, t), t, account); }
  }

  lemma LockInsertionSpendsNothing(s: State, t: nat, newLock: nat, account: nat)
    requires OnlyGets(s, account) && t in s.tasks && s.tasks[t].account == account
    ensures Spends(s, LockInserted(s, t, newLock), account)
  {
    if s.tasks[t].stage.Inserting? { MovingSpendsNothing(s, LockInserted(s, t, newLock), t, account); }
  }

  lemma AcquiringSpendsNothing(s: State, t: nat, account: nat)
    requires OnlyGets(s, account) && t in s.tasks && s.tasks[t].account == account
    ensures Spends(s, Acquired(s, t), account)
  {
    if s.tasks[t].stage.Waiting? { MovingSpendsNothing(s, Acquired(s, t), t, account); }
  }

  lemma NotingSpendsNothing(s: State, t: nat, applied: bool, account: nat)
    requires OnlyGets(s, account) && t in s.tasks && s.tasks[t].account == account
    ensures Spends(s, RefreshNoted(s, t, applied), account)
  {
    if s.tasks[t].stage.Allowed? { MovingSpendsNothing(s, RefreshNoted(s, t, applied), t, account); }
  }

  lemma MarkingSpendsNothing(s: State, t: nat, applied: bool, account: nat)
    requires OnlyGets(s, account) && t in s.tasks && s.tasks[t].account == account
    ensures Spends(s, ReauthSet(s, t, applied), account)
  {
  }

  lemma RestoringSpendsNothing(s: State, t: nat, applied: bool, account: nat)
    requires OnlyGets(s, account) && t in s.tasks && s.tasks[t].account == account
    ensures Spends(s, Restored(s, t, applied), account)
  {
    if s.tasks[t].stage.Restoring? { MovingSpendsNothing(s, Restored(s, t, applied), t, account); }
  }

  lemma ActiveSpendsNothing(s: State, t: nat, account: nat)
    requires OnlyGets(s, account) && t in s.tasks && s.tasks[t].account == account
    ensures Spends(s, ActiveRead(s, t, true), account)
  {
    if s.tasks[t].stage.Received? { MovingSpendsNothing(s, ActiveRead(s, t, true), t, account); }
  }

  lemma RecordingSpendsNothing(s: State, t: nat, applied: bool, account: nat)
    requires OnlyGets(s, account) && t in s.tasks && s.tasks[t].account == account
    ensures Spends(s, SignInRecorded(s, t, applied), account)
  {
    if s.tasks[t].stage.Recording? { MovingSpendsNothing(s, SignInRecorded(s, t, applied), t, account); }
  }

  lemma NobodyElseHasToken(s: State, t: nat, account: nat)
    requires Inv(s) && t in s.tasks && s.tasks[t].account == account && s.tasks[t].stage.Sending?
    ensures forall u :: u in s.tasks && s.tasks[u].account == account ==> !HasToken(s.tasks[u].stage)
  {
    forall u | u in s.tasks && s.tasks[u].account == account ensures !HasToken(s.tasks[u].stage) {
      if s.tasks[u].stage.InLock() { OneAtATime(s, t, u); }
    }
  }

  /** A refresh succeeds only when nobody is served yet, and from then on everybody is. */
  lemma AnswerSpendsOne(s: State, t: nat, reply: Reply, account: nat)
    requires Inv(s) && OnlyGets(s, account) && t in s.tasks && s.tasks[t].account == account
    ensures Spends(s, Answered(s, t, reply), account)
  {
    if s.tasks[t].stage.Sending? {
      var n := Answered(s, t, reply);
      if reply.Granted? {
        NobodyElseHasToken(s, t, account);
        assert !Served(s, account);
        assert HasToken(n.tasks[t].stage);
      } else {
        MovingSpendsNothing(s, n, t, account);
      }
    }
  }

  lemma InsertSpendsNothing(s: State, t: nat, account: nat)
    requires OnlyGets(s, account) && t in s.tasks && s.tasks[t].account == account
    ensures Spends(s, TokenInserted(s, t), account)
  {
    if s.tasks[t].stage.Publishing? { assert CacheValid(TokenInserted(s, t), account); }
  }

  lemma StepSpends(s: State, step: Step, account: nat)
    requires Inv(s) && OnlyGets(s, account) && Calm(s, step, account)
    ensures Spends(s, Next(s, step), account)
  {
    if !IsTaskStep(step) {
      OthersSpendNothing(s, step, account);
    } else if step.task !in s.tasks || s.tasks[step.task].account != account {
      TaskStepsAct(s, step);
      ElsewhereSpendsNothing(s, Next(s, step), step.task, account);
    } else {
      match step
      case Answer(t, reply) => AnswerSpendsOne(s, t, reply, account);
      case InsertToken(t) => InsertSpendsNothing(s, t, account);
      case ReadActive(t, readable) => ActiveSpendsNothing(s, t, account);
      case FirstCheck(t) => FirstCheckSpendsNothing(s, t, account);
      case Recheck(t) => RecheckSpendsNothing(s, t, account);
      case ReadStatus(t) => ReadingSpendsNothing(s, t, account);
      case FindLock(t) => FindingSpendsNothing(s, t, account);
      case InsertLock(t, newLock) => LockInsertionSpendsNothing(s, t, newLock, account);
      case Acquire(t) => AcquiringSpendsNothing(s, t, account);
      case NoteRefreshing(t, applied) => NotingSpendsNothing(s, t, applied, account);
      case SetReauth(t, applied) => MarkingSpendsNothing(s, t, applied, account);
      case Restore(t, applied) => RestoringSpendsNothing(s, t, applied, account);
      case RecordSignIn(t, applied) => RecordingSpendsNothing(s, t, applied, account);
    }
  }

  lemma BeginningSpendsNothing(s: State, t: nat, kind: Kind, other: nat, account: nat)
    requires OnlyGets(s, account) && (other == account ==> kind.Get?)
    ensures Spends(s, Next(s, Begin(t, kind, other)), account)
  {
    var n := Next(s, Begin(t, kind, other));
    if Served(s, account) && !CacheValid(s, account) {
      var u :| u in s.tasks && s.tasks[u].account == account && HasToken(s.tasks[u].stage);
      assert n.tasks[u] == s.tasks[u];
    }
  }

  /** A change of the cache or the accounts table that leaves this account's token and does not disconnect it. */
  lemma TablesSpendNothing(s: State, n: State, account: nat)
    requires OnlyGets(s, account) && n.tasks == s.tasks && n.granted == s.granted
    requires CacheValid(s, account) ==> CacheValid(n, account)
    requires account in n.status && !n.status[account].Disconnected?
    ensures Spends(s, n, account)
  {
    if Served(s, account) && !CacheValid(s, account) {
      var u :| u in s.tasks && s.tasks[u].account == account && HasToken(s.tasks[u].stage);
      assert HasToken(n.tasks[u].stage);
    }
  }

  lemma OthersSpendNothing(s: State, step: Step, account: nat)
    requires OnlyGets(s, account) && Calm(s, step, account) && !IsTaskStep(step)
    ensures Spends(s, Next(s, step), account)
  {
    match step
    case Begin(t, kind, other) => BeginningSpendsNothing(s, t, kind, other, account);
    case _ => TablesSpendNothing(s, Next(s, step), account);
  }

  /** However many requests for one account interleave, at most one refresh of it succeeds as long as its token is
      neither taken away nor forced, and none at all while a valid one is cached. */
  lemma {:induction false} OneRefreshServesAll(s: State, steps: seq<Step>, account: nat)
    requires Inv(s) && OnlyGets(s, account) && StaysCalm(s, steps, account)
    ensures OnlyGets(Run(s, steps), account)
    ensures Budget(Run(s, steps), account) <= Budget(s, account)
    ensures Grants(Run(s, steps), account) <= Grants(s, account) + if Served(s, account) then 0 else 1
  {
    if steps != [] {
      var before := steps[..|steps| - 1];
      OneRefreshServesAll(s, before, account);
      RunKeepsInv(s, before);
      StepSpends(Run(s, before), steps[|steps| - 1], account);
    }
  }

  // ---------------------------------------------------------------- one request, with nobody in its way

  /** What else a task leaves as it was on its way. */
  predicate OnTheWay(s: State, n: State, t: nat, task: Task) {
    && t in n.tasks && n.tasks[t] == task
    && n.tokens == s.tokens && n.granted == s.granted && n.status.Keys == s.status.Keys
  }

  /** The steps of a request up to the decision to refresh. */
  function LookedUp(s: State, t: nat): State {
    StatusRead(Rechecked(Acquired(LockFound(FirstChecked(s, t), t), t), t), t)
  }

  /** The steps from that decision to the answer. */
  function Asked(s: State, t: nat, reply: Reply): State {
    Answered(RefreshNoted(s, t, true), t, reply)
  }

  /** The steps of a refresh that succeeds. */
  function Refreshed(s: State, t: nat, token: nat): State {
    SignInRecorded(TokenInserted(ActiveRead(Asked(s, t, Granted(token)), t, true), t), t, true)
  }

  predicate MayRefresh(status: AuthStatus) {
    !status.Disconnected? && !status.RemovalPending? && !status.ReauthRequired?
  }

  /** A request that begins with nobody in its way, and that no token in the cache will satisfy. */
  predicate SetsOut(s: State, t: nat, kind: Kind, account: nat) {
    && t in s.tasks && s.tasks[t] == Task(kind, account, Begun)
    && (kind.Force? || (kind.Get? && !CacheValid(s, account)))
    && account in s.locks && s.locks[account] !in s.held && account in s.status
  }

  lemma RequestIsChecked(s: State, t: nat, kind: Kind, account: nat)
    requires SetsOut(s, t, kind, account)
    ensures
      var d := Rechecked(Acquired(LockFound(FirstChecked(s, t), t), t), t);
      && OnTheWay(s, d, t, Task(kind, account, Checked(s.locks[account])))
      && d.status == s.status && d.held == s.held[s.locks[account] := t]
  {
    var lock := s.locks[account];
    var a := FirstChecked(s, t);
    assert OnTheWay(s, a, t, Task(kind, account, Seeking)) && a.locks == s.locks && a.held == s.held;
    var b := LockFound(a, t);
    assert OnTheWay(s, b, t, Task(kind, account, Waiting(lock))) && b.held == s.held && b.status == s.status;
    var c := Acquired(b, t);
    assert OnTheWay(s, c, t, Task(kind, account, Holding(lock))) && c.status == s.status;
  }

  lemma RequestIsAllowed(s: State, t: nat, kind: Kind, account: nat)
    requires SetsOut(s, t, kind, account) && MayRefresh(s.status[account])
    ensures OnTheWay(s, LookedUp(s, t), t, Task(kind, account, Allowed(s.locks[account], s.status[account])))
    ensures LookedUp(s, t).status == s.status && LookedUp(s, t).held == s.held[s.locks[account] := t]
  {
    RequestIsChecked(s, t, kind, account);
  }

  /** An account that is gone, being removed or to sign in again is refused before anything is sent. */
  lemma BarredIsRefused(s: State, t: nat, kind: Kind, account: nat)
    requires SetsOut(s, t, kind, account) && !MayRefresh(s.status[account])
    ensures
      var n := LookedUp(s, t);
      OnTheWay(s, n, t, Task(kind, account, Ended(None))) && n.status == s.status && n.held == s.held
  {
    RequestIsChecked(s, t, kind, account);
    var d := Rechecked(Acquired(LockFound(FirstChecked(s, t), t), t), t);
    assert d.held - {s.locks[account]} == s.held;
  }

  lemma RequestIsSent(s: State, t: nat, kind: Kind, account: nat)
    requires SetsOut(s, t, kind, account) && MayRefresh(s.status[account])
    ensures
      var lock, previous := s.locks[account], s.status[account];
      var f := RefreshNoted(LookedUp(s, t), t, true);
      && OnTheWay(s, f, t, Task(kind, account, Sending(lock, previous)))
      && f.status == s.status[account := TokenRefreshing] && f.held == s.held[lock := t]
  {
    RequestIsAllowed(s, t, kind, account);
  }

  function StatusAfter(reply: Reply, previous: AuthStatus): AuthStatus {
    match reply
    case InvalidGrant => ReauthRequired
    case OtherError => previous
    case _ => TokenRefreshing
  }

  lemma AskedInVain(f: State, t: nat, task: Task, reply: Reply)
    requires t in f.tasks && f.tasks[t] == task && task.stage.Sending? && !reply.Granted?
    requires task.account in f.status && f.status[task.account].TokenRefreshing?
    ensures
      var g := Answered(f, t, reply);
      && t in g.tasks && g.tokens == f.tokens && g.granted == f.granted && g.status == f.status
      && (if reply.NoCredential? then
            g.tasks[t] == task.(stage := Ended(None)) && g.held == f.held - {task.stage.lock}
          else
            && g.tasks[t] ==
                 task.(stage := Restoring(task.stage.lock, StatusAfter(reply, task.stage.previous)))
            && g.held == f.held)
  {
  }

  lemma RestoredAfter(g: State, t: nat, task: Task)
    requires t in g.tasks && g.tasks[t] == task && (task.stage.Restoring? || task.stage.Ended?)
    requires task.account in g.status
    ensures
      var n := Restored(g, t, true);
      && t in n.tasks && n.tokens == g.tokens && n.granted == g.granted
      && (if task.stage.Ended? then n == g
          else
            && n.tasks[t] == task.(stage := Ended(None)) && n.held == g.held - {task.stage.lock}
            && n.status == g.status[task.account := task.stage.status])
  {
  }

  lemma SentIsRefused(s: State, f: State, t: nat, kind: Kind, account: nat, reply: Reply)
    requires account in s.locks && s.locks[account] !in s.held && account in s.status && !reply.Granted?
    requires OnTheWay(s, f, t, Task(kind, account, Sending(s.locks[account], s.status[account])))
    requires f.status == s.status[account := TokenRefreshing] && f.held == s.held[s.locks[account] := t]
    ensures
      var n := Restored(Answered(f, t, reply), t, true);
      && OnTheWay(s, n, t, Task(kind, account, Ended(None))) && n.held == s.held
      && n.status == s.status[account := StatusAfter(reply, s.status[account])]
  {
    AskedInVain(f, t, f.tasks[t], reply);
    var g := Answered(f, t, reply);
    RestoredAfter(g, t, g.tasks[t]);
    assert f.held - {s.locks[account]} == s.held;
  }

  /** A request that is refused ends without a token and leaves the cache and the lock as they were. The account has to
      sign in again after an invalid grant, has its old status after any other error, and is left as refreshing where
      no credential was found. */
  lemma RefusalIsRecorded(s: State, t: nat, kind: Kind, account: nat, reply: Reply)
    requires SetsOut(s, t, kind, account) && MayRefresh(s.status[account]) && !reply.Granted?
    ensures
      var n := Restored(Asked(LookedUp(s, t), t, reply), t, true);
      && OnTheWay(s, n, t, Task(kind, account, Ended(None))) && n.held == s.held
      && n.status == s.status[account := StatusAfter(reply, s.status[account])]
  {
    RequestIsSent(s, t, kind, account);
    SentIsRefused(s, RefreshNoted(LookedUp(s, t), t, true), t, kind, account, reply);
  }

  lemma GrantIsReceived(s: State, t: nat, kind: Kind, account: nat, token: nat)
    requires SetsOut(s, t, kind, account) && MayRefresh(s.status[account])
    ensures
      var n := Asked(LookedUp(s, t), t, Granted(token));
      && t in n.tasks && n.tasks[t] == Task(kind, account, Received(s.locks[account], token))
      && n.tokens == s.tokens && account in n.status && n.status == s.status[account := TokenRefreshing]
      && Grants(n, account) == Grants(s, account) + 1 && n.held == s.held[s.locks[account] := t]
  {
    RequestIsSent(s, t, kind, account);
  }

  lemma ReceivedIsPublished(g: State, t: nat, kind: Kind, account: nat, lock: nat, token: nat)
    requires t in g.tasks && g.tasks[t] == Task(kind, account, Received(lock, token))
    requires account in g.status && g.status[account].TokenRefreshing?
    ensures
      var n := SignInRecorded(TokenInserted(ActiveRead(g, t, true), t), t, true);
      && t in n.tasks && n.tasks[t] == Task(kind, account, Ended(Some(token)))
      && CacheValid(n, account) && n.tokens[account].token == token
      && account in n.status && n.status[account].Connected? && lock !in n.held && n.granted == g.granted
  {
    var h := ActiveRead(g, t, true);
    assert t in h.tasks && h.tasks[t] == Task(kind, account, Publishing(lock, token)) && h.status == g.status;
    var k := TokenInserted(h, t);
    assert t in k.tasks && k.tasks[t] == Task(kind, account, Recording(lock, token)) && k.status == g.status;
  }

  /** A token granted to an account that was disconnected meanwhile is used once and not cached. */
  lemma GoneIsNotCached(s: State, t: nat, readable: bool)
    requires t in s.tasks && s.tasks[t].stage.Received?
    requires s.tasks[t].account in s.status && s.status[s.tasks[t].account].Disconnected?
    ensures
      var n := ActiveRead(s, t, readable);
      && t in n.tasks && n.tasks[t].stage == Ended(Some(s.tasks[t].stage.token)) && n.tokens == s.tokens
      && n.status == s.status && n.held == s.held - {s.tasks[t].stage.lock}
  {
  }

  /** A request that finds its account's lock free and nothing valid in the cache, or that is forced whatever is cached,
      obtains the token that Google grants, caches it in place of any other and leaves the account connected. */
  lemma RequestObtainsToken(s: State, t: nat, kind: Kind, account: nat, token: nat)
    requires SetsOut(s, t, kind, account) && MayRefresh(s.status[account])
    ensures
      var n := Refreshed(LookedUp(s, t), t, token);
      && t in n.tasks && n.tasks[t] == Task(kind, account, Ended(Some(token)))
      && CacheValid(n, account) && n.tokens[account].token == token
      && account in n.status && n.status[account].Connected? && s.locks[account] !in n.held
      && Grants(n, account) == Grants(s, account) + 1
  {
    GrantIsReceived(s, t, kind, account, token);
    ReceivedIsPublished(Asked(LookedUp(s, t), t, Granted(token)), t, kind, account, s.locks[account], token);
  }

  /** A request that finds a valid token has it at once, and moves nothing. */
  lemma CachedIsReturned(s: State, t: nat, account: nat)
    requires t in s.tasks && s.tasks[t] == Task(Get, account, Begun) && CacheValid(s, account)
    ensures Next(s, FirstCheck(t)) == Moved(s, t, Ended(Some(s.tokens[account].token)))
  {
  }

  /** From its first step on, before it has the lock, marking keeps the rejected token from any request that begins. */
  lemma MarkingWithdrawsAtOnce(s: State, mark: nat, t: nat, account: nat)
    requires mark in s.tasks && s.tasks[mark] == Task(Mark, account, Begun)
    requires t in s.tasks && s.tasks[t] == Task(Get, account, Begun)
    ensures
      var n := Next(Next(s, FirstCheck(mark)), FirstCheck(t));
      account !in n.tokens && t in n.tasks && n.tasks[t] == Task(Get, account, Seeking)
  {
    var a := Next(s, FirstCheck(mark));
    assert account !in a.tokens && a.tasks[t] == s.tasks[t];
  }

  /** A token that has expired or was taken away satisfies no request that begins. */
  lemma StaleIsNotReturned(s: State, step: Step, t: nat, account: nat)
    requires step == Expire(account) || step == Invalidate(account)
    requires t in s.tasks && s.tasks[t] == Task(Get, account, Begun)
    ensures
      var n := Next(Next(s, step), FirstCheck(t));
      t in n.tasks && n.tasks[t] == Task(Get, account, Seeking)
  {
    var a := Next(s, step);
    assert !CacheValid(a, account) && a.tasks == s.tasks;
  }

  /** Whatever barred an account, once it is reconnected a request for it obtains a token again. */
  lemma ReconnectedObtainsToken(s: State, t: nat, kind: Kind, account: nat, token: nat)
    requires SetsOut(s, t, kind, account)
    ensures
      var n := Refreshed(LookedUp(Next(s, Reconnect(account)), t), t, token);
      t in n.tasks && n.tasks[t] == Task(kind, account, Ended(Some(token))) && CacheValid(n, account)
  {
    RequestObtainsToken(Next(s, Reconnect(account)), t, kind, account, token);
  }
}
