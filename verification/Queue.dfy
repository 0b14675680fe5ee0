/** The job queue: snapshots are read, changes computed from them, and the result committed only if the
    queue has not moved since. Commits are atomic; clients may interleave anywhere between read and commit. */
module Queue {
  import opened Items
  import opened Jobs

  const I64_MAX: int := 0x7FFF_FFFF_FFFF_FFFF

  datatype Change = Change(id: nat, job: Job, event: Event)

  // ---------------------------------------------------------------- queue order

  function QueuedIds(table: map<nat, Job>): set<nat> {
    set id | id in table && table[id].status.Queued?
  }

  function SortPosition(job: Job): int {
    match job.queuePosition
    case Some(p) => p
    case None => I64_MAX
  }

  /** Queue order: by position, then by id. */
  predicate Before(table: map<nat, Job>, a: nat, b: nat) {
    a in table && b in table
    && (SortPosition(table[a]) < SortPosition(table[b])
        || (SortPosition(table[a]) == SortPosition(table[b]) && a < b))
  }

  predicate Sorted(table: map<nat, Job>, order: seq<nat>) {
    order == [] || ((forall x :: x in order[1..] ==> Before(table, order[0], x)) && Sorted(table, order[1..]))
  }

  ghost predicate IsOrder(table: map<nat, Job>, ids: set<nat>, order: seq<nat>) {
    Sorted(table, order) && forall id :: id in order <==> id in ids
  }

  lemma {:induction false} SortedAt(table: map<nat, Job>, order: seq<nat>, j: nat, k: nat)
    requires Sorted(table, order) && j < k < |order|
    ensures Before(table, order[j], order[k])
    decreases |order|
  {
    if j == 0 {
      assert order[k] == order[1..][k - 1] && order[1..][k - 1] in order[1..];
    } else {
      SortedAt(table, order[1..], j - 1, k - 1);
      assert order[j] == order[1..][j - 1] && order[k] == order[1..][k - 1];
    }
  }

  /** What the order means: a smaller position comes first, a job without one last, and the older job where both have
      the same or neither has one. */
  lemma OrderMeans(table: map<nat, Job>, ids: set<nat>, order: seq<nat>, j: nat, k: nat)
    requires IsOrder(table, ids, order) && j < k < |order|
    requires forall id :: id in table && table[id].queuePosition.Some? ==> table[id].queuePosition.value < I64_MAX
    ensures order[j] in table && order[k] in table
    ensures
      match (table[order[j]].queuePosition, table[order[k]].queuePosition)
      case (Some(p), Some(q)) => p < q || (p == q && order[j] < order[k])
      case (Some(_), None) => true
      case (None, Some(_)) => false
      case (None, None) => order[j] < order[k]
  {
    SortedAt(table, order, j, k);
  }

  lemma FirstAndRest(order: seq<nat>)
    requires order != []
    ensures forall x :: x in order <==> x == order[0] || x in order[1..]
  {
    assert order == [order[0]] + order[1..];
  }

  lemma TailIsOrder(table: map<nat, Job>, ids: set<nat>, p: seq<nat>)
    requires p != [] && IsOrder(table, ids, p)
    ensures IsOrder(table, ids - {p[0]}, p[1..]) && p[0] in ids
  {
    FirstAndRest(p);
  }

  lemma EmptyOrder(table: map<nat, Job>, ids: set<nat>, p: seq<nat>)
    requires IsOrder(table, ids, p)
    ensures p == [] <==> ids == {}
  {
    if p != [] { assert p[0] in ids; }
  }

  /** A set of jobs has one queue order. */
  lemma {:induction false} OrderIsUnique(table: map<nat, Job>, ids: set<nat>, p: seq<nat>, q: seq<nat>)
    requires IsOrder(table, ids, p) && IsOrder(table, ids, q)
    ensures p == q
    decreases |p|
  {
    EmptyOrder(table, ids, p);
    EmptyOrder(table, ids, q);
    if p != [] {
      FirstAndRest(p);
      FirstAndRest(q);
      assert p[0] in q && q[0] in p;
      TailIsOrder(table, ids, p);
      TailIsOrder(table, ids, q);
      OrderIsUnique(table, ids - {p[0]}, p[1..], q[1..]);
      assert p == [p[0]] + p[1..] && q == [q[0]] + q[1..];
    }
  }

  /** The sequence with an id put in its sorted place. */
  function InsertSorted(table: map<nat, Job>, order: seq<nat>, id: nat): seq<nat> {
    if order == [] then [id]
    else if Before(table, id, order[0]) then [id] + order
    else [order[0]] + InsertSorted(table, order[1..], id)
  }

  lemma {:induction false} InsertingKeepsOrder(table: map<nat, Job>, ids: set<nat>, order: seq<nat>, id: nat)
    requires IsOrder(table, ids, order) && id in table && id !in ids && ids <= table.Keys
    ensures IsOrder(table, ids + {id}, InsertSorted(table, order, id))
    decreases |order|
  {
    var r := InsertSorted(table, order, id);
    FirstAndRest(r);
    if order != [] {
      FirstAndRest(order);
      if Before(table, id, order[0]) {
        assert r[1..] == order;
      } else {
        TailIsOrder(table, ids, order);
        InsertingKeepsOrder(table, ids - {order[0]}, order[1..], id);
        assert r[1..] == InsertSorted(table, order[1..], id);
      }
    }
  }

  /** The ids in queue order. */
  method SortQueue(table: map<nat, Job>, ids: set<nat>) returns (order: seq<nat>)
    requires ids <= table.Keys
    ensures IsOrder(table, ids, order)
  {
    order := [];
    var left := ids;
    while left != {}
      invariant left <= ids && IsOrder(table, ids - left, order)
      decreases left
    {
      var id :| id in left;
      InsertingKeepsOrder(table, ids - left, order, id);
      order := InsertSorted(table, order, id);
      assert ids - left + {id} == ids - (left - {id});
      left := left - {id};
    }
    assert ids - left == ids;
  }

  // ---------------------------------------------------------------- what a commit does

  /** The table after: these jobs queued at positions 1 to n in this order, every other job as before. */
  predicate Numbered(before: map<nat, Job>, after: map<nat, Job>, order: seq<nat>) {
    && after.Keys == before.Keys
    && (forall k :: 0 <= k < |order| ==> order[k] in after && after[order[k]] == Job(Queued, Some(k + 1)))
    && (forall id :: id in before && id !in order ==> after[id] == before[id])
  }

  lemma {:induction false} NumberedIsSorted(table: map<nat, Job>, order: seq<nat>, from: nat)
    requires forall k :: 0 <= k < |order| ==> order[k] in table && table[order[k]] == Job(Queued, Some(from + k + 1))
    ensures Sorted(table, order)
    decreases |order|
  {
    if order != [] {
      var rest := order[1..];
      forall k | 0 <= k < |rest| ensures rest[k] in table && table[rest[k]] == Job(Queued, Some(from + 1 + k + 1)) {
        assert rest[k] == order[k + 1];
      }
      NumberedIsSorted(table, rest, from + 1);
    }
  }

  function InsertAt(order: seq<nat>, at: nat, id: nat): seq<nat>
    requires at <= |order|
  {
    order[..at] + [id] + order[at..]
  }

  /** The job stands at its place, those before it where they were, those after it one further on. */
  lemma InsertedMeans(order: seq<nat>, at: nat, id: nat)
    requires at <= |order|
    ensures
      var all := InsertAt(order, at, id);
      && |all| == |order| + 1 && all[at] == id
      && forall k :: 0 <= k < |order| ==> order[k] == all[if k < at then k else k + 1]
  {
  }

  /** Inserting a job into the queue order and renumbering yields the queue with exactly that order. */
  lemma InsertionIsTheNewOrder(before: map<nat, Job>, after: map<nat, Job>, order: seq<nat>, at: nat, id: nat)
    requires IsOrder(before, QueuedIds(before) - {id}, order) && at <= |order|
    requires Numbered(before, after, InsertAt(order, at, id))
    ensures IsOrder(after, QueuedIds(after), InsertAt(order, at, id))
    ensures |QueuedIds(after)| == |order| + 1
  {
    var r := InsertAt(order, at, id);
    forall x | x in QueuedIds(after) ensures x in r {
      InOrderInInsertion(order, at, id, x);
      assert x in r || x in QueuedIds(before) - {id};
    }
    NumberedIsSorted(after, r, 0);
    CountOfOrder(after, QueuedIds(after), r);
  }

  lemma InOrderInInsertion(order: seq<nat>, at: nat, id: nat, x: nat)
    requires at <= |order|
    ensures x in InsertAt(order, at, id) <==> x == id || x in order
  {
    assert order == order[..at] + order[at..];
  }

  lemma PlacedThere(before: map<nat, Job>, after: map<nat, Job>, order: seq<nat>, at: nat, id: nat)
    requires IsOrder(before, QueuedIds(before) - {id}, order) && at <= |order|
    requires Numbered(before, after, InsertAt(order, at, id))
    ensures id in after && after[id] == Job(Queued, Some(at + 1)) && |QueuedIds(after)| == |order| + 1
  {
    InsertedMeans(order, at, id);
    InsertionIsTheNewOrder(before, after, order, at, id);
  }

  /** Taking a job out and renumbering yields the queue in the order of those that stay. */
  lemma RemovalKeepsTheOrder(before: map<nat, Job>, after: map<nat, Job>, order: seq<nat>, id: nat, restored: JobStatus)
    requires id in before && IsOrder(before, QueuedIds(before) - {id}, order) && !restored.Queued?
    requires Numbered(before[id := Job(restored, None)], after, order)
    ensures IsOrder(after, QueuedIds(after), order) && after[id] == Job(restored, None)
    ensures |QueuedIds(after)| == |order|
  {
    forall x | x in QueuedIds(after) ensures x in order {
      assert x in order || x in QueuedIds(before) - {id};
    }
    NumberedIsSorted(after, order, 0);
    CountOfOrder(after, QueuedIds(after), order);
  }

  lemma {:induction false} CountOfOrder(table: map<nat, Job>, ids: set<nat>, order: seq<nat>)
    requires IsOrder(table, ids, order)
    ensures |ids| == |order|
    decreases |order|
  {
    EmptyOrder(table, ids, order);
    if order != [] {
      TailIsOrder(table, ids, order);
      CountOfOrder(table, ids - {order[0]}, order[1..]);
    }
  }

  // ---------------------------------------------------------------- the store and its clients

  datatype Outcome = Committed | JobNotFound | IllegalTransition | QueueMoved | JobMoved | StoreFault

  /** Both tables have the same jobs queued at the same positions. */
  predicate SameQueue(a: map<nat, Job>, b: map<nat, Job>) {
    && QueuedIds(a) == QueuedIds(b)
    && forall id :: id in QueuedIds(a) ==> a[id].queuePosition == b[id].queuePosition
  }

  /** The row a change was computed from still stands and no worker holds the job. */
  predicate StillStands(expected: map<nat, Job>, table: map<nat, Job>, leases: set<nat>, id: nat) {
    id in expected && id in table && table[id] == expected[id] && id !in leases
  }

  predicate OnceEach(changes: seq<Change>) {
    forall j, k :: 0 <= j < k < |changes| ==> changes[j].id != changes[k].id
  }

  /** The first `n` changes are in, nothing else moved. */
  predicate Applied(before: map<nat, Job>, after: map<nat, Job>, changes: seq<Change>, n: nat)
    requires n <= |changes|
  {
    && after.Keys == before.Keys
    && (forall k :: 0 <= k < n ==> changes[k].id in after && after[changes[k].id] == changes[k].job)
    && (forall id :: id in before && (forall k :: 0 <= k < n ==> changes[k].id != id) ==> after[id] == before[id])
  }

  /** A row still to be changed is as it was. */
  lemma StandsAlike(
    expected: map<nat, Job>, before: map<nat, Job>, table: map<nat, Job>, leases: set<nat>, changes: seq<Change>,
        i: nat)
    requires OnceEach(changes) && i < |changes| && Applied(before, table, changes, i)
    ensures StillStands(expected, table, leases, changes[i].id) == StillStands(expected, before, leases, changes[i].id)
  {
  }

  lemma OneMoreApplied(before: map<nat, Job>, table: map<nat, Job>, changes: seq<Change>, i: nat)
    requires OnceEach(changes) && i < |changes| && Applied(before, table, changes, i) && changes[i].id in table
    ensures Applied(before, table[changes[i].id := changes[i].job], changes, i + 1)
    ensures EventsOf(changes[..i + 1]) == EventsOf(changes[..i]) + [changes[i].event]
    ensures table[changes[i].id] == before[changes[i].id]
  {
    assert changes[..i + 1][..i] == changes[..i];
  }

  function EventsOf(changes: seq<Change>): seq<Event> {
    if changes == [] then [] else EventsOf(changes[..|changes| - 1]) + [changes[|changes| - 1].event]
  }

  /** A job of the queue being rewritten: what it will be, but for its number. */
  datatype Entry = Entry(id: nat, job: Job)

  function Renumbered(entry: Entry, index: nat): Job {
    if entry.job.status.Queued? then entry.job.(queuePosition := Some(index + 1)) else entry.job
  }

  function EventFor(expected: map<nat, Job>, entry: Entry): Event
    requires entry.id in expected
  {
    Event(entry.id, QueueUpdated, Some(expected[entry.id].status), entry.job.status)
  }

  /** The events of a rewritten queue, in order. */
  function QueueEvents(table: map<nat, Job>, entries: seq<Entry>): seq<Event>
    requires forall k :: 0 <= k < |entries| ==> entries[k].id in table
  {
    if entries == [] then []
    else QueueEvents(table, entries[..|entries| - 1]) + [EventFor(table, entries[|entries| - 1])]
  }

  /** The log of a rewritten queue names each of its jobs in turn, the status it came from and the one it has now. */
  lemma {:induction false} EventsInTurn(table: map<nat, Job>, entries: seq<Entry>, k: nat)
    requires (forall j :: 0 <= j < |entries| ==> entries[j].id in table) && k < |entries|
    ensures |QueueEvents(table, entries)| == |entries|
    ensures QueueEvents(table, entries)[k] ==
            Event(entries[k].id, QueueUpdated, Some(table[entries[k].id].status), entries[k].job.status)
    decreases |entries|
  {
    var rest := entries[..|entries| - 1];
    if rest != [] { EventsInTurn(table, rest, if k < |rest| then k else 0); }
  }

  /** The entries of jobs queued in this order. */
  function Entries(order: seq<nat>): (r: seq<Entry>)
    ensures |r| == |order| && forall k :: 0 <= k < |r| ==> r[k] == Entry(order[k], Job(Queued, Some(k + 1)))
  {
    if order == [] then []
    else Entries(order[..|order| - 1]) + [Entry(order[|order| - 1], Job(Queued, Some(|order|)))]
  }

  lemma {:induction false} OrderTransfers(a: map<nat, Job>, b: map<nat, Job>, order: seq<nat>)
    requires SameQueue(a, b) && Sorted(a, order) && forall x :: x in order ==> x in QueuedIds(a)
    ensures Sorted(b, order)
    decreases |order|
  {
    if order != [] {
      FirstAndRest(order);
      OrderTransfers(a, b, order[1..]);
    }
  }

  lemma {:induction false} SortedIsDistinct(table: map<nat, Job>, order: seq<nat>)
    requires Sorted(table, order)
    ensures forall j, k :: 0 <= j < k < |order| ==> order[j] != order[k]
    decreases |order|
  {
    if order != [] {
      SortedIsDistinct(table, order[1..]);
      forall j, k | 0 <= j < k < |order| ensures order[j] != order[k] {
        assert order[1..][k - 1] in order[1..];
        assert order[k] == order[1..][k - 1];
        if j > 0 { assert order[j] == order[1..][j - 1]; }
      }
    }
  }

  class QueueStore {
    var jobs: map<nat, Job>
    var leases: set<nat>
    var log: seq<Event>

    constructor (jobs: map<nat, Job>, leases: set<nat>, log: seq<Event>)
      ensures this.jobs == jobs && this.leases == leases && this.log == log
    {
      this.jobs, this.leases, this.log := jobs, leases, log;
    }

    /** One transaction: check the snapshot, update row by row, roll back on the first row that moved. */
    method PersistQueueChanges(expected: map<nat, Job>, changes: seq<Change>) returns (r: Outcome)
      requires OnceEach(changes)
      modifies `jobs, `log
      ensures !r.Committed? ==> jobs == old(jobs) && log == old(log)
      ensures r.Committed? ==>
                && SameQueue(expected, old(jobs))
                && (forall k :: 0 <= k < |changes| ==> StillStands(expected, old(jobs), leases, changes[k].id))
                && Applied(old(jobs), jobs, changes, |changes|)
                && log == old(log) + EventsOf(changes)
      ensures r.QueueMoved? ==> !SameQueue(expected, old(jobs))
      ensures r.JobMoved? ==>
                exists k :: 0 <= k < |changes| && !StillStands(expected, old(jobs), leases, changes[k].id)
      ensures !r.JobNotFound? && !r.IllegalTransition?
    {
      if !SameQueue(expected, jobs) { return QueueMoved; }
      var stands, table, events := ApplyChanges(expected, changes);
      if !stands { return JobMoved; }
      var fault: bool := *;
      if fault { return StoreFault; }
      jobs, log := table, events;
      r := Committed;
    }

    /** The table and the log with the changes in, as the transaction holds them; it ends at the first row that is not
        as expected. */
    method ApplyChanges(expected: map<nat, Job>, changes: seq<Change>)
      returns (stands: bool, table: map<nat, Job>, events: seq<Event>)
      requires OnceEach(changes)
      ensures stands ==> Applied(jobs, table, changes, |changes|) && events == log + EventsOf(changes)
      ensures stands <==> forall k :: 0 <= k < |changes| ==> StillStands(expected, jobs, leases, changes[k].id)
    {
      stands, table, events := true, jobs, log;
      assert changes[..0] == [];
      for i := 0 to |changes|
        invariant Applied(jobs, table, changes, i)
        invariant events == log + EventsOf(changes[..i])
        invariant forall k :: 0 <= k < i ==> StillStands(expected, jobs, leases, changes[k].id)
      {
        if !StillStands(expected, table, leases, changes[i].id) {
          StandsAlike(expected, jobs, table, leases, changes, i);
          return false, table, events;
        }
        OneMoreApplied(jobs, table, changes, i);
        table := table[changes[i].id := changes[i].job];
        events := events + [changes[i].event];
      }
      assert changes[..|changes|] == changes;
    }

    /** Number the queue from one and commit it with one event for each of its jobs. */
    method PersistQueue(expected: map<nat, Job>, entries: seq<Entry>) returns (r: Outcome)
      requires forall j, k :: 0 <= j < k < |entries| ==> entries[j].id != entries[k].id
      requires forall k :: 0 <= k < |entries| ==> entries[k].id in expected
      modifies `jobs, `log
      ensures !r.Committed? ==> jobs == old(jobs) && log == old(log)
      ensures r.Committed? ==>
                && SameQueue(expected, old(jobs)) && jobs.Keys == old(jobs).Keys
                && (forall k :: 0 <= k < |entries| ==> StillStands(expected, old(jobs), leases, entries[k].id))
                && (forall k :: 0 <= k < |entries| ==>
                    entries[k].id in jobs && jobs[entries[k].id] == Renumbered(entries[k], k))
                && (forall id :: id in jobs && (forall k :: 0 <= k < |entries| ==> entries[k].id != id) ==>
                      jobs[id] == old(jobs)[id])
                && log == old(log) + QueueEvents(old(jobs), entries)
      ensures r.Committed? || r.StoreFault? || r.QueueMoved? || r.JobMoved?
      ensures r.QueueMoved? || r.JobMoved? ==>
                || !SameQueue(expected, old(jobs))
                || exists k :: 0 <= k < |entries| && !StillStands(expected, old(jobs), leases, entries[k].id)
    {
      var changes: seq<Change> := [];
      for i := 0 to |entries|
        invariant |changes| == i
        invariant forall k :: 0 <= k < i ==>
                    changes[k] == Change(entries[k].id, Renumbered(entries[k], k), EventFor(expected, entries[k]))
      {
        changes := changes + [Change(entries[i].id, Renumbered(entries[i], i), EventFor(expected, entries[i]))];
      }
      r := PersistQueueChanges(expected, changes);
      if r.Committed? {
        assert forall k :: 0 <= k < |entries| ==> changes[k].id == entries[k].id;
        EventsAgree(expected, old(jobs), entries, changes);
      }
    }

    /** Commit the queue with a job at a place in it. */
    method Place(expected: map<nat, Job>, order: seq<nat>, at: nat, id: nat) returns (r: Outcome)
      requires id in expected && IsOrder(expected, QueuedIds(expected) - {id}, order) && at <= |order|
      modifies `jobs, `log
      ensures !r.Committed? ==> jobs == old(jobs) && log == old(log)
      ensures r.Committed? ==>
                && id in old(jobs) && old(jobs)[id] == expected[id] && SameQueue(expected, old(jobs))
                && IsOrder(old(jobs), QueuedIds(old(jobs)) - {id}, order)
                && Numbered(old(jobs), jobs, InsertAt(order, at, id))
                && LogsQueue(old(jobs), old(log), log, Entries(InsertAt(order, at, id)))
                && NoneLeased(old(jobs), leases, id)
                && id in jobs && jobs[id] == Job(Queued, Some(at + 1)) && |QueuedIds(jobs)| == |order| + 1
      ensures r.Committed? || r.StoreFault? || r.QueueMoved? || r.JobMoved?
      ensures r.QueueMoved? || r.JobMoved? ==> Moved(expected, old(jobs), leases, id)
    {
      InsertionIsDistinct(expected, order, at, id);
      var entries := Entries(InsertAt(order, at, id));
      r := PersistQueue(expected, entries);
      if r.Committed? {
        InsertionCommitted(expected, old(jobs), jobs, leases, order, at, id, entries);
        assert forall k :: 0 <= k < |entries| ==> StillStands(expected, old(jobs), leases, entries[k].id);
        InsertionIsUnleased(expected, old(jobs), leases, order, at, id, entries);
        PlacedThere(old(jobs), jobs, order, at, id);
      }
    }

    /** Put a job into the queue, or move it, at a place asked for or at the end. The snapshot may be any old one:
        what is committed is the change made to the table as it stands at that moment, or nothing. */
    method ChangeQueue(expected: map<nat, Job>, id: nat, position: Option<int>, requireQueued: bool)
      returns (r: Outcome, ghost order: seq<nat>, ghost at: nat)
      modifies `jobs, `log
      ensures !r.Committed? ==> jobs == old(jobs) && log == old(log)
      ensures r.Committed? ==>
                && id in old(jobs) && Enqueue(old(jobs)[id], 0).Some?
                    && (requireQueued ==> old(jobs)[id].status.Queued?)
                && IsOrder(old(jobs), QueuedIds(old(jobs)) - {id}, order) && at <= |order|
                && (match position case Some(p) => p == at + 1 case None => at == |order|)
                && Numbered(old(jobs), jobs, InsertAt(order, at, id))
                && LogsQueue(old(jobs), old(log), log, Entries(InsertAt(order, at, id)))
                && NoneLeased(old(jobs), leases, id)
                && jobs[id] == Job(Queued, Some(if position.Some? then position.value else |QueuedIds(jobs)|))
      ensures r.JobNotFound? <==> id !in expected
      ensures r.IllegalTransition? <==> id in expected && !Admissible(expected, id, position, requireQueued)
      ensures r.QueueMoved? || r.JobMoved? ==> Moved(expected, old(jobs), leases, id)
    {
      order, at := [], 0;
      if id !in expected { return JobNotFound, order, at; }
      if requireQueued && !expected[id].status.Queued? { return IllegalTransition, order, at; }
      var queued := SortQueue(expected, QueuedIds(expected) - {id});
      CountOfOrder(expected, QueuedIds(expected) - {id}, queued);
      if position.Some? && !(1 <= position.value <= |queued| + 1) { return IllegalTransition, order, at; }
      var insertAt := if position.Some? then position.value - 1 else |queued|;
      if Enqueue(expected[id], insertAt + 1).None? { return IllegalTransition, order, at; }
      r := Place(expected, queued, insertAt, id);
      order, at := queued, insertAt;
    }

    /** Commit the queue without a job. */
    method TakeOut(expected: map<nat, Job>, order: seq<nat>, id: nat, restored: JobStatus) returns (r: Outcome)
      requires id in expected && expected[id].status.Queued? && IsOrder(expected, QueuedIds(expected) - {id}, order)
      requires Restorable(restored)
      modifies `jobs, `log
      ensures !r.Committed? ==> jobs == old(jobs) && log == old(log)
      ensures r.Committed? ==> Taken(old(jobs), jobs, order, id, restored) && NoneLeased(old(jobs), leases, id)
      ensures r.Committed? ==> LogsQueue(old(jobs), old(log), log, Entries(order) + [Entry(id, Job(restored, None))])
      ensures r.Committed? || r.StoreFault? || r.QueueMoved? || r.JobMoved?
      ensures r.QueueMoved? || r.JobMoved? ==> Moved(expected, old(jobs), leases, id)
    {
      SortedIsDistinct(expected, order);
      var entries := Entries(order) + [Entry(id, RemoveFromQueue(expected[id], restored).value)];
      assert forall k :: 0 <= k < |order| ==> entries[k].id == order[k] && order[k] in order;
      r := PersistQueue(expected, entries);
      if r.Committed? {
        RemovalCommitted(expected, old(jobs), jobs, leases, order, id, restored, entries);
        assert forall k :: 0 <= k < |entries| ==> StillStands(expected, old(jobs), leases, entries[k].id);
        RemovalIsUnleased(expected, old(jobs), leases, order, id, entries);
      }
    }

    /** Take a job out of the queue, back to the status its events say it came from, as they were when they were read:
        what happens to the job between that and the commit does not count. */
    method RemoveQueuedJob(expected: map<nat, Job>, id: nat, seen: seq<Event>, signs: Signs)
      returns (r: Outcome, ghost order: seq<nat>)
      modifies `jobs, `log
      ensures !r.Committed? ==> jobs == old(jobs) && log == old(log)
      ensures r.Committed? ==>
                var restored := RestoredStatus(QueuedFrom(seen, id), LatestStatusEvent(seen, id), signs);
                && Taken(old(jobs), jobs, order, id, restored) && NoneLeased(old(jobs), leases, id)
                && LogsQueue(old(jobs), old(log), log, Entries(order) + [Entry(id, Job(restored, None))])
      ensures r.JobNotFound? <==> id !in expected
      ensures r.IllegalTransition? <==> id in expected && !expected[id].status.Queued?
      ensures r.QueueMoved? || r.JobMoved? ==> Moved(expected, old(jobs), leases, id)
    {
      order := [];
      if id !in expected { return JobNotFound, order; }
      if !expected[id].status.Queued? { return IllegalTransition, order; }
      var restored := RestoredStatus(QueuedFrom(seen, id), LatestStatusEvent(seen, id), signs);
      var queued := SortQueue(expected, QueuedIds(expected) - {id});
      r := TakeOut(expected, queued, id, restored);
      order := queued;
    }
  }

  /** No worker holds a job of the queue, nor this one. */
  predicate NoneLeased(table: map<nat, Job>, leases: set<nat>, id: nat) {
    forall x :: x in QueuedIds(table) + {id} ==> x !in leases
  }

  lemma InsertionIsUnleased(
    expected: map<nat, Job>, table: map<nat, Job>, leases: set<nat>, order: seq<nat>, at: nat, id: nat,
    entries: seq<Entry>)
    requires IsOrder(table, QueuedIds(table) - {id}, order) && at <= |order|
    requires entries == Entries(InsertAt(order, at, id))
    requires forall k :: 0 <= k < |entries| ==> StillStands(expected, table, leases, entries[k].id)
    ensures NoneLeased(table, leases, id)
  {
    forall x | x in QueuedIds(table) + {id} ensures x !in leases {
      InOrderInInsertion(order, at, id, x);
      var k :| 0 <= k < |entries| && InsertAt(order, at, id)[k] == x;
      assert entries[k].id == x;
    }
  }

  lemma RemovalIsUnleased(
    expected: map<nat, Job>, table: map<nat, Job>, leases: set<nat>, order: seq<nat>, id: nat, entries: seq<Entry>)
    requires IsOrder(table, QueuedIds(table) - {id}, order)
    requires |entries| == |order| + 1 && entries[..|order|] == Entries(order) && entries[|order|].id == id
    requires forall k :: 0 <= k < |entries| ==> StillStands(expected, table, leases, entries[k].id)
    ensures NoneLeased(table, leases, id)
  {
    assert StillStands(expected, table, leases, entries[|order|].id);
    forall x | x in QueuedIds(table) - {id} ensures x !in leases {
      var k :| 0 <= k < |order| && order[k] == x;
      assert entries[..|order|][k] == entries[k];
      assert StillStands(expected, table, leases, entries[k].id);
    }
  }

  /** The job is out of the queue with this status, and the others keep their order. */
  ghost predicate Taken(before: map<nat, Job>, after: map<nat, Job>, order: seq<nat>, id: nat, restored: JobStatus) {
    && id in before && before[id].status.Queued? && !restored.Queued?
    && IsOrder(before, QueuedIds(before) - {id}, order)
    && Numbered(before[id := Job(restored, None)], after, order)
  }

  lemma RemovalCommitted(
    expected: map<nat, Job>, before: map<nat, Job>, after: map<nat, Job>, leases: set<nat>, order: seq<nat>, id: nat,
    restored: JobStatus, entries: seq<Entry>)
    requires id in expected && expected[id].status.Queued? && IsOrder(expected, QueuedIds(expected) - {id}, order)
    requires SameQueue(expected, before) && after.Keys == before.Keys && !restored.Queued?
    requires entries == Entries(order) + [Entry(id, Job(restored, None))]
    requires forall k :: 0 <= k < |entries| ==> StillStands(expected, before, leases, entries[k].id)
    requires forall k :: 0 <= k < |entries| ==>
               entries[k].id in after && after[entries[k].id] == Renumbered(entries[k], k)
    requires forall x :: x in after && (forall k :: 0 <= k < |entries| ==> entries[k].id != x) ==> after[x] == before[x]
    ensures id in before && before[id].status.Queued?
    ensures IsOrder(before, QueuedIds(before) - {id}, order)
    ensures Numbered(before[id := Job(restored, None)], after, order)
  {
    var n := |order|;
    assert entries[n] == Entry(id, Job(restored, None)) && StillStands(expected, before, leases, entries[n].id);
    assert after[id] == Job(restored, None);
    forall k | 0 <= k < n ensures order[k] in after && after[order[k]] == Job(Queued, Some(k + 1)) {
      assert entries[k] == Entry(order[k], Job(Queued, Some(k + 1)));
    }
    forall x | x in before && x != id && x !in order ensures after[x] == before[x] {
      assert forall k :: 0 <= k < |entries| ==> entries[k].id == if k < n then order[k] else id;
    }
    OrderTransfers(expected, before, order);
  }

  // ---------------------------------------------------------------- where a queued job came from

  /** What else the store shows about a job: a canary cohort, scan checkpoints, items a bulk run has begun. */
  datatype Signs = Signs(hasCohort: bool, hasCheckpoints: bool, bulkStarted: bool)

  function QueuedFrom(log: seq<Event>, id: nat): Option<JobStatus> {
    if log == [] then None
    else
      var e := log[|log| - 1];
      if e.jobId == id && e.kind.QueueUpdated? && e.previous.Some? && !e.previous.value.Queued? then e.previous
      else QueuedFrom(log[..|log| - 1], id)
  }

  function LatestStatusEvent(log: seq<Event>, id: nat): Option<Event> {
    if log == [] then None
    else
      var e := log[|log| - 1];
      if e.jobId == id && e.kind.StatusEvent? then Some(e) else LatestStatusEvent(log[..|log| - 1], id)
  }

  predicate LooksLikeTransferPause(latest: Option<Event>, signs: Signs) {
    || (latest.Some? && latest.value.previous.Some? && latest.value.previous.value.IsUnfinishedMutation())
    || signs.hasCohort || signs.bulkStarted
  }

  /** Something shows that the job has been worked on: a canary, items begun in bulk, a scan not at its end, or a newest
      status event that a running job wrote. */
  predicate ShowsWork(latest: Option<Event>, signs: Signs) {
    || signs.hasCohort || signs.bulkStarted || signs.hasCheckpoints
    || (latest.Some? && latest.value.previous.Some? && latest.value.previous.value.IsUnfinishedMutation())
  }

  predicate LeadsTo(latest: Option<Event>, status: JobStatus) {
    latest.Some? && latest.value.next == status
  }

  /** A job goes back to ready for review or to canary review only from there, or where nothing tells otherwise: a job
      that shows work, or was paused last, is paused again. */
  function RestoredStatus(from: Option<JobStatus>, latest: Option<Event>, signs: Signs): (r: JobStatus)
    ensures r.ReadyForReview? || r.Paused? || r.CanaryReview?
    ensures r.ReadyForReview? <==>
              || from == Some(ReadyForReview)
              || (from != Some(Paused) && from != Some(CanaryReview) && !ShowsWork(latest, signs)
                  && !LeadsTo(latest, Paused) && !LeadsTo(latest, CanaryReview))
    ensures r.CanaryReview? <==>
              || from == Some(CanaryReview)
              || (from != Some(Paused) && from != Some(ReadyForReview) && LeadsTo(latest, CanaryReview))
  {
    if from == Some(ReadyForReview) then ReadyForReview
    else if from == Some(Paused) then Paused
    else if from == Some(CanaryReview) || (latest.Some? && latest.value.next.CanaryReview?) then CanaryReview
    else if signs.hasCheckpoints || (latest.Some? && latest.value.next.Paused?) then Paused
    else if !signs.hasCohort && !LooksLikeTransferPause(latest, signs) then ReadyForReview
    else Paused
  }

  /** A job queued after a rate limit, a quota wait or a lost sign-in that shows work is paused when it is taken out,
      unless its newest status event left it in review. */
  lemma StoppedGoesBackPaused(log: seq<Event>, id: nat, origin: JobStatus, signs: Signs)
    requires QueuedFrom(log, id) == Some(origin)
    requires origin.SourceRateLimited? || origin.WaitingForQuota? || origin.AuthRequired?
    requires !LeadsTo(LatestStatusEvent(log, id), CanaryReview) && ShowsWork(LatestStatusEvent(log, id), signs)
    ensures RestoredStatus(QueuedFrom(log, id), LatestStatusEvent(log, id), signs) == Paused
  {
  }

  /** Queue events of a job that is already queued do not hide where it came from. */
  lemma {:induction false} RequeuingKeepsOrigin(log: seq<Event>, table: map<nat, Job>, entries: seq<Entry>, id: nat)
    requires forall k :: 0 <= k < |entries| ==> entries[k].id in table
    requires forall k :: 0 <= k < |entries| && entries[k].id == id ==> table[id].status.Queued?
    ensures QueuedFrom(log + QueueEvents(table, entries), id) == QueuedFrom(log, id)
  {
    if entries == [] {
      assert log + [] == log;
    } else {
      var rest := entries[..|entries| - 1];
      RequeuingKeepsOrigin(log, table, rest, id);
      var whole := log + QueueEvents(table, entries);
      assert whole[..|whole| - 1] == log + QueueEvents(table, rest);
      assert whole[|whole| - 1] == EventFor(table, entries[|entries| - 1]);
    }
  }

  /** Queueing a job from outside the queue records the status it had. */
  lemma {:induction false} QueueingRecordsOrigin(log: seq<Event>, table: map<nat, Job>, entries: seq<Entry>, id: nat,
      at: nat)
    requires forall k :: 0 <= k < |entries| ==> entries[k].id in table
    requires at < |entries| && entries[at].id == id && !table[id].status.Queued?
    ensures QueuedFrom(log + QueueEvents(table, entries), id) == Some(table[id].status)
    decreases |entries|
  {
    var rest := entries[..|entries| - 1];
    var whole := log + QueueEvents(table, entries);
    assert whole[..|whole| - 1] == log + QueueEvents(table, rest);
    assert whole[|whole| - 1] == EventFor(table, entries[|entries| - 1]);
    if entries[|entries| - 1].id != id { QueueingRecordsOrigin(log, table, rest, id, at); }
  }

  /** Taking a job out again leaves the others in the order they had without it. */
  lemma InsertionUndone(before: map<nat, Job>, mid: map<nat, Job>, order: seq<nat>, at: nat, id: nat)
    requires id in before && IsOrder(before, QueuedIds(before) - {id}, order) && at <= |order|
    requires Numbered(before, mid, InsertAt(order, at, id))
    ensures IsOrder(mid, QueuedIds(mid) - {id}, order)
  {
    InsertionIsTheNewOrder(before, mid, order, at, id);
    SkipKeepsSorted(mid, order, at, id);
    forall x ensures x in order <==> x in QueuedIds(mid) - {id} {
      InOrderInInsertion(order, at, id, x);
    }
  }

  lemma InsertInRest(order: seq<nat>, at: nat, id: nat)
    requires 0 < at <= |order|
    ensures
      var all := InsertAt(order, at, id);
      all[0] == order[0] && all[1..] == InsertAt(order[1..], at - 1, id)
  {
  }

  lemma {:induction false} SkipKeepsSorted(table: map<nat, Job>, order: seq<nat>, at: nat, id: nat)
    requires at <= |order| && Sorted(table, InsertAt(order, at, id))
    ensures Sorted(table, order)
    decreases |order|
  {
    if at == 0 {
      assert InsertAt(order, at, id)[1..] == order;
    } else {
      InsertInRest(order, at, id);
      SkipKeepsSorted(table, order[1..], at - 1, id);
      forall x | x in order[1..] ensures Before(table, order[0], x) {
        InOrderInInsertion(order[1..], at - 1, id, x);
      }
    }
  }

  /** The log grew by one event for each job of the queue, naming the status it came from. */
  predicate LogsQueue(table: map<nat, Job>, before: seq<Event>, after: seq<Event>, entries: seq<Entry>) {
    && (forall k :: 0 <= k < |entries| ==> entries[k].id in table)
    && after == before + QueueEvents(table, entries)
  }

  /** Something the change depends on is not as the snapshot has it. */
  predicate Moved(expected: map<nat, Job>, table: map<nat, Job>, leases: set<nat>, id: nat) {
    || !SameQueue(expected, table)
    || exists x :: x in QueuedIds(expected) + {id} && !StillStands(expected, table, leases, x)
  }

  /** The request makes sense for the table it was computed from. */
  predicate Admissible(expected: map<nat, Job>, id: nat, position: Option<int>, requireQueued: bool)
    requires id in expected
  {
    && (requireQueued ==> expected[id].status.Queued?)
    && (position.Some? ==> 1 <= position.value <= |QueuedIds(expected) - {id}| + 1)
    && Enqueue(expected[id], 0).Some?
  }

  lemma InsertionIsDistinct(table: map<nat, Job>, order: seq<nat>, at: nat, id: nat)
    requires IsOrder(table, QueuedIds(table) - {id}, order) && at <= |order| && id in table
    ensures
      var all := InsertAt(order, at, id);
      && (forall j, k :: 0 <= j < k < |all| ==> all[j] != all[k])
      && (forall k :: 0 <= k < |all| ==> all[k] in QueuedIds(table) + {id})
  {
    SortedIsDistinct(table, order);
    var all := InsertAt(order, at, id);
    forall k | 0 <= k < |all| && k != at ensures all[k] in QueuedIds(table) - {id} {
      assert all[k] == order[if k < at then k else k - 1];
      assert all[k] in order;
    }
    forall j, k | 0 <= j < k < |all| ensures all[j] != all[k] {
      if j != at && k != at {
        assert all[j] == order[if j < at then j else j - 1];
        assert all[k] == order[if k < at then k else k - 1];
      }
    }
  }

  /** What the commit of an insertion means for the table it met. */
  lemma InsertionCommitted(
    expected: map<nat, Job>, before: map<nat, Job>, after: map<nat, Job>, leases: set<nat>, order: seq<nat>, at: nat,
    id: nat, entries: seq<Entry>)
    requires id in expected && IsOrder(expected, QueuedIds(expected) - {id}, order) && at <= |order|
    requires SameQueue(expected, before) && after.Keys == before.Keys
    requires entries == Entries(InsertAt(order, at, id))
    requires forall k :: 0 <= k < |entries| ==> StillStands(expected, before, leases, entries[k].id)
    requires forall k :: 0 <= k < |entries| ==>
               entries[k].id in after && after[entries[k].id] == Renumbered(entries[k], k)
    requires forall x :: x in after && (forall k :: 0 <= k < |entries| ==> entries[k].id != x) ==> after[x] == before[x]
    ensures id in before && before[id] == expected[id]
    ensures IsOrder(before, QueuedIds(before) - {id}, order) && Numbered(before, after, InsertAt(order, at, id))
  {
    var all := InsertAt(order, at, id);
    assert all[at] == id && entries[at].id == id;
    forall k | 0 <= k < |all| ensures all[k] in after && after[all[k]] == Job(Queued, Some(k + 1)) {
      assert entries[k].id == all[k] && StillStands(expected, before, leases, entries[k].id);
    }
    forall x | x in before && x !in all ensures after[x] == before[x] {
      assert forall k :: 0 <= k < |entries| ==> entries[k].id == all[k];
    }
    OrderTransfers(expected, before, order);
  }

  lemma {:induction false} EventsAgree(
    expected: map<nat, Job>, table: map<nat, Job>, entries: seq<Entry>, changes: seq<Change>)
    requires |changes| == |entries|
    requires forall k :: 0 <= k < |entries| ==>
               && entries[k].id in expected && entries[k].id in table && table[entries[k].id] == expected[entries[k].id]
               && changes[k].event == EventFor(expected, entries[k])
    ensures EventsOf(changes) == QueueEvents(table, entries)
  {
    if changes != [] {
      EventsAgree(expected, table, entries[..|entries| - 1], changes[..|changes| - 1]);
    }
  }

  /** One queue request about job `id`: put or move it, or take it out by the events and signs read for it. */
  datatype Request =
    | Put(id: nat, position: Option<int>, requireQueued: bool)
    | Take(id: nat, seen: seq<Event>, signs: Signs)

  /** A job that stays queued keeps the origin the log gives it, whatever is asked of the queue meanwhile. */
  method Serve(store: QueueStore, expected: map<nat, Job>, request: Request, kept: nat) returns (r: Outcome)
    requires kept in store.jobs && store.jobs[kept].status.Queued? && !(request.Take? && request.id == kept)
    modifies store
    ensures kept in store.jobs && store.jobs[kept].status.Queued?
    ensures QueuedFrom(store.log, kept) == QueuedFrom(old(store.log), kept)
  {
    ghost var order, at;
    match request
    case Put(id, position, requireQueued) =>
      r, order, at := store.ChangeQueue(expected, id, position, requireQueued);
      if r.Committed? {
        InOrderInInsertion(order, at, id, kept);
        RequeuingKeepsOrigin(old(store.log), old(store.jobs), Entries(InsertAt(order, at, id)), kept);
      }
    case Take(id, seen, signs) =>
      r, order := store.RemoveQueuedJob(expected, id, seen, signs);
      if r.Committed? {
        var restored := RestoredStatus(QueuedFrom(seen, id), LatestStatusEvent(seen, id), signs);
        assert kept in order;
        RequeuingKeepsOrigin(old(store.log), old(store.jobs), Entries(order) + [Entry(id, Job(restored, None))], kept);
      }
  }

  /** Whatever other requests come, a queued job stays queued and its events tell where it came from. */
  method ServeAll(
    store: QueueStore, id: nat, requests: seq<Request>, snapshots: seq<map<nat, Job>>, ghost origin: JobStatus)
    requires |snapshots| == |requests|
    requires forall k :: 0 <= k < |requests| ==> !(requests[k].Take? && requests[k].id == id)
    requires id in store.jobs && store.jobs[id].status.Queued? && QueuedFrom(store.log, id) == Some(origin)
    modifies store
    ensures id in store.jobs && store.jobs[id].status.Queued? && QueuedFrom(store.log, id) == Some(origin)
  {
    for i := 0 to |requests|
      invariant id in store.jobs && store.jobs[id].status.Queued? && QueuedFrom(store.log, id) == Some(origin)
    {
      var served := Serve(store, snapshots[i], requests[i], id);
    }
  }

  method QueueIt(store: QueueStore, snapshot: map<nat, Job>, id: nat, position: Option<int>) returns (r: Outcome)
    requires id in store.jobs && !store.jobs[id].status.Queued?
    modifies store
    ensures r.Committed? ==>
              && id in store.jobs && store.jobs[id].status.Queued?
              && QueuedFrom(store.log, id) == Some(old(store.jobs)[id].status)
  {
    ghost var order, at;
    r, order, at := store.ChangeQueue(snapshot, id, position, false);
    if r.Committed? {
      assert InsertAt(order, at, id)[at] == id;
      QueueingRecordsOrigin(old(store.log), old(store.jobs), Entries(InsertAt(order, at, id)), id, at);
    }
  }

  ghost predicate NumberedInOrder(table: map<nat, Job>) {
    exists order :: IsOrder(table, QueuedIds(table), order) && Numbered(table, table, order)
  }

  /** A job whose events, when they were read, told its origin goes back there if it can. */
  method TakeItOut(
    store: QueueStore, snapshot: map<nat, Job>, id: nat, seen: seq<Event>, signs: Signs, ghost origin: JobStatus)
    returns (r: Outcome)
    requires QueuedFrom(seen, id) == Some(origin) && !origin.Queued?
    modifies store
    ensures r.Committed? ==>
              && id in store.jobs && (Restorable(origin) <==> store.jobs[id] == Job(origin, None))
              && store.jobs[id] == Job(RestoredStatus(Some(origin), LatestStatusEvent(seen, id), signs), None)
              && NumberedInOrder(store.jobs)
              && store.log != []
              && store.log[|store.log| - 1] == Event(id, QueueUpdated, Some(Queued), store.jobs[id].status)
  {
    ghost var before := store.jobs;
    ghost var order;
    ghost var restored := RestoredStatus(QueuedFrom(seen, id), LatestStatusEvent(seen, id), signs);
    r, order := store.RemoveQueuedJob(snapshot, id, seen, signs);
    if r.Committed? {
      RemovalKeepsTheOrder(before, store.jobs, order, id, restored);
      EventsInTurn(before, Entries(order) + [Entry(id, Job(restored, None))], |order|);
      assert Numbered(store.jobs, store.jobs, order);
    }
  }

  /** Queue a job, serve any other requests, read the job's events, serve more requests, take the job out: it is back
      where it was, if it was in a status the queue can restore, and the queue is numbered from one in the order it had
      without the job. */
  method QueueAndRemove(
    store: QueueStore, id: nat, position: Option<int>, requests: seq<Request>, snapshots: seq<map<nat, Job>>,
    readAfter: nat, signs: Signs)
    returns (queued: Outcome, removed: Outcome, seen: seq<Event>)
    requires id in store.jobs && !store.jobs[id].status.Queued?
    requires |snapshots| == |requests| + 2 && readAfter <= |requests|
    requires forall k :: 0 <= k < |requests| ==> !(requests[k].Take? && requests[k].id == id)
    modifies store
    ensures queued.Committed? && removed.Committed? ==>
              && id in store.jobs
              && (Restorable(old(store.jobs)[id].status) <==> store.jobs[id] == Job(old(store.jobs)[id].status, None))
              && store.jobs[id].status ==
                   RestoredStatus(Some(old(store.jobs)[id].status), LatestStatusEvent(seen, id), signs)
              && NumberedInOrder(store.jobs) && store.log != []
              && store.log[|store.log| - 1] == Event(id, QueueUpdated, Some(Queued), store.jobs[id].status)
  {
    removed, seen := StoreFault, [];
    ghost var origin := store.jobs[id].status;
    queued := QueueIt(store, snapshots[0], id, position);
    if !queued.Committed? { return; }
    ServeAll(store, id, requests[..readAfter], snapshots[1..readAfter + 1], origin);
    seen := store.log;
    ServeAll(store, id, requests[readAfter..], snapshots[readAfter + 1..|requests| + 1], origin);
    removed := TakeItOut(store, snapshots[|requests| + 1], id, seen, signs, origin);
  }

  lemma QueueEventTellsOrigin(log: seq<Event>, e: Event, id: nat)
    requires e.jobId == id
    ensures QueuedFrom(log + [e], id) ==
            if e.kind.QueueUpdated? && e.previous.Some? && !e.previous.value.Queued? then e.previous
            else QueuedFrom(log, id)
  {
    assert (log + [e])[..|log|] == log;
  }

  /** A job queued from review is taken out of the queue, transferred for a while, paused and queued again. */
  function ThereAndBack(id: nat): seq<Event> {
    [Event(id, QueueUpdated, Some(Queued), CanaryReview)] + [Event(id, StatusEvent, Some(CanaryReview), Running)]
    + [Event(id, StatusEvent, Some(Running), Paused)] + [Event(id, QueueUpdated, Some(Paused), Queued)]
  }

  /** Events read before all that put the job back in review, although it was queued while paused: its row is as it was
      when they were read, so that nothing stops the commit. */
  lemma StaleEventsRestoreReview(log: seq<Event>, id: nat, signs: Signs)
    requires QueuedFrom(log, id) == Some(CanaryReview)
    ensures
      var now := log + ThereAndBack(id);
      && RestoredStatus(QueuedFrom(log, id), LatestStatusEvent(log, id), signs) == CanaryReview
      && RestoredStatus(QueuedFrom(now, id), LatestStatusEvent(now, id), signs) == Paused
  {
    var back := ThereAndBack(id);
    assert log + back == (log + back[..3]) + [back[3]];
    QueueEventTellsOrigin(log + back[..3], back[3], id);
  }
}
