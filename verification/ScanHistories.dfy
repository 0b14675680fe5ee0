/** The runs of a scan as a sequence of events, each run stopped anywhere, and when they keep the leaf-first order. */
module ScanHistories {
  import opened Items
  import opened Classifier
  import opened ScanModel
  import opened ScanInvariant
  import opened ScanMeasure
  import opened ScanSeed
  import opened ScanOrder

  /** The tables, what the wave under way still holds, and the queue. Between runs the last two are empty. */
  datatype RunState = RunState(tables: Durable, wave: seq<Work>, queue: seq<Work>)

  datatype Event =
    | Resume(order: seq<Work>)             // any run ends here, and the next lists the checkpoints in any order
    | TakeWave
    | Page(index: nat)                     // any page of the wave arrives and is applied to its end
    | StopInPage(index: nat, rows: nat)    // any page arrives, and the run ends after a commit of this many of its rows

  predicate IsListing(d: Durable, order: seq<Work>) {
    InStep(d, order) && forall f :: f in d.checkpoints ==> AsWork(f, d.checkpoints[f]) in order
  }

  function WaveSize(queue: seq<Work>, concurrency: nat): nat {
    Min(|queue|, if concurrency == 0 then 1 else concurrency)
  }

  function Without(wave: seq<Work>, i: nat): seq<Work>
    requires i < |wave|
  {
    wave[..i] + wave[i + 1..]
  }

  predicate CanHappen(drive: Drive, s: RunState, e: Event) {
    match e
    case Resume(order) => IsListing(s.tables, order)
    case TakeWave => s.wave == [] && s.queue != []
    case Page(i) => i < |s.wave| && OnDrive(drive, s.wave[i])
    case StopInPage(i, rows) =>
      && i < |s.wave| && OnDrive(drive, s.wave[i])
      && ChunkEnd(rows, |PlanFor(drive, s.tables, s.wave[i]).rows|)
  }

  function After(drive: Drive, concurrency: nat, s: RunState, e: Event): RunState
    requires CanHappen(drive, s, e)
  {
    match e
    case Resume(order) => RunState(s.tables, [], order)
    case TakeWave =>
      var size := WaveSize(s.queue, concurrency);
      RunState(s.tables, s.queue[..size], s.queue[size..])
    case Page(i) =>
      var w := s.wave[i];
      RunState(AfterPage(drive, s.tables, w), Without(s.wave, i),
               s.queue + (NextWork(w.folder, w.depth, NextToken(drive, w))
                          + FolderWork(PlanFor(drive, s.tables, w).folders)))
    case StopInPage(i, rows) => RunState(PageCut(s.tables, PlanFor(drive, s.tables, s.wave[i]), rows), [], [])
  }

  /** The state a history leads to, if it is one. */
  function StateAfter(drive: Drive, concurrency: nat, start: Durable, events: seq<Event>): Option<RunState> {
    if events == [] then Some(RunState(start, [], []))
    else
      var before := StateAfter(drive, concurrency, start, events[..|events| - 1]);
      var e := events[|events| - 1];
      if before.Some? && CanHappen(drive, before.value, e) then Some(After(drive, concurrency, before.value, e))
      else None
  }

  predicate NoStopInPage(events: seq<Event>) {
    forall e :: e in events ==> !e.StopInPage?
  }

  predicate IsDone(s: RunState) {
    s.wave == [] && s.queue == [] && s.tables.checkpoints == map[]
  }

  predicate PagesFit(drive: Drive, n: nat) {
    forall f, k :: f in drive.listing && 0 <= k < |drive.listing[f]| ==> |drive.listing[f][k]| <= n
  }

  // ---------------------------------------------------------------- what keeps the order

  ghost predicate Ordered(drive: Drive, roots: set<Id>, s: RunState) {
    && DepthsAgree(s.tables) && roots <= s.tables.items.Keys
    && LeafFirst(drive, roots, s.tables)
    && InStep(s.tables, s.wave + s.queue)
  }

  lemma {:induction false} NewChildrenAreFew(visited: set<Id>, page: seq<DriveChild>)
    ensures |NewChildren(visited, page)| <= |page|
  {
    if page != [] { NewChildrenAreFew(visited, page[..|page| - 1]); }
  }

  /** A page that fits one batch can only be stopped before its rows or after all of them. */
  lemma SmallPageKeepsOrder(drive: Drive, roots: set<Id>, d: Durable, w: Work, rows: nat)
    requires CanApply(drive, d, w) && |PageOf(drive, w)| <= SCAN_CHECKPOINT_BATCH_SIZE
    requires ChunkEnd(rows, |PlanFor(drive, d, w).rows|)
    requires DepthsAgree(d) && roots <= d.items.Keys && LeafFirst(drive, roots, d)
    ensures
      var cut := PageCut(d, PlanFor(drive, d, w), rows);
      DepthsAgree(cut) && roots <= cut.items.Keys && LeafFirst(drive, roots, cut)
  {
    NewChildrenAreFew(d.items.Keys, PageOf(drive, w));
    if rows == |PlanFor(drive, d, w).rows| {
      RowsAloneLeadOn(drive, roots, d, w);
    } else {
      assert PageCut(d, PlanFor(drive, d, w), 0) == d;
    }
  }

  lemma PageKeepsOrder(drive: Drive, concurrency: nat, roots: set<Id>, s: RunState, i: nat)
    requires CanHappen(drive, s, Page(i)) && Ordered(drive, roots, s)
    ensures Ordered(drive, roots, After(drive, concurrency, s, Page(i)))
  {
    var w, rest := s.wave[i], Without(s.wave, i);
    var after := After(drive, concurrency, s, Page(i));
    TakenInStep(s.tables, s.wave, s.queue, i);
    PageLeadsOn(drive, roots, s.tables, w);
    PageRejoins(drive, s.tables, w, rest, s.queue);
    assert after.wave + after.queue == QueueAfter(drive, PlanFor(drive, s.tables, w), w, rest, s.queue);
  }

  /** Every event keeps the order, but for a stop inside a page that is too large for one batch. */
  lemma EventKeepsOrder(drive: Drive, concurrency: nat, roots: set<Id>, s: RunState, e: Event)
    requires CanHappen(drive, s, e) && Ordered(drive, roots, s)
    requires e.StopInPage? ==> |PageOf(drive, s.wave[e.index])| <= SCAN_CHECKPOINT_BATCH_SIZE
    ensures Ordered(drive, roots, After(drive, concurrency, s, e))
  {
    match e
    case Resume(order) =>
      assert [] + order == order;
    case TakeWave =>
      var size := WaveSize(s.queue, concurrency);
      assert s.queue[..size] + s.queue[size..] == s.queue == s.wave + s.queue;
    case Page(i) =>
      PageKeepsOrder(drive, concurrency, roots, s, i);
    case StopInPage(i, rows) =>
      TakenInStep(s.tables, s.wave, s.queue, i);
      SmallPageKeepsOrder(drive, roots, s.tables, s.wave[i], rows);
  }

  lemma {:induction false} HistoryKeepsOrder(drive: Drive, concurrency: nat, ids: seq<Id>, events: seq<Event>)
    requires KnowsRoots(drive, ids)
    requires PagesFit(drive, SCAN_CHECKPOINT_BATCH_SIZE) || NoStopInPage(events)
    requires StateAfter(drive, concurrency, Seeded(drive, ids), events).Some?
    ensures Ordered(drive, ToSet(ids), StateAfter(drive, concurrency, Seeded(drive, ids), events).value)
    decreases |events|
  {
    if events == [] {
      SeedLeads(drive, ids);
    } else {
      var earlier, e := events[..|events| - 1], events[|events| - 1];
      assert e in events;
      HistoryKeepsOrder(drive, concurrency, ids, earlier);
      var s := StateAfter(drive, concurrency, Seeded(drive, ids), earlier).value;
      EventKeepsOrder(drive, concurrency, ToSet(ids), s, e);
    }
  }

  // ---------------------------------------------------------------- tables that a history leads to

  ghost predicate Reached(drive: Drive, concurrency: nat, start: Durable, whole: bool, s: RunState) {
    exists events :: StateAfter(drive, concurrency, start, events) == Some(s) && (whole ==> NoStopInPage(events))
  }

  ghost predicate ReachedTables(drive: Drive, concurrency: nat, start: Durable, whole: bool, d: Durable) {
    exists wave, queue :: Reached(drive, concurrency, start, whole, RunState(d, wave, queue))
  }

  lemma TablesAreReached(drive: Drive, concurrency: nat, start: Durable, whole: bool, s: RunState)
    requires Reached(drive, concurrency, start, whole, s)
    ensures ReachedTables(drive, concurrency, start, whole, s.tables)
  {
    assert s == RunState(s.tables, s.wave, s.queue);
  }

  lemma ReachedNext(drive: Drive, concurrency: nat, start: Durable, whole: bool, s: RunState, e: Event)
    requires Reached(drive, concurrency, start, whole, s) && CanHappen(drive, s, e)
    ensures Reached(drive, concurrency, start, whole && !e.StopInPage?, After(drive, concurrency, s, e))
  {
    var events :| StateAfter(drive, concurrency, start, events) == Some(s) && (whole ==> NoStopInPage(events));
    assert (events + [e])[..|events|] == events;
    assert StateAfter(drive, concurrency, start, events + [e]) == Some(After(drive, concurrency, s, e));
  }

  lemma StartIsReached(drive: Drive, concurrency: nat, start: Durable, whole: bool)
    ensures Reached(drive, concurrency, start, whole, RunState(start, [], []))
  {
    assert StateAfter(drive, concurrency, start, []) == Some(RunState(start, [], []));
  }

  lemma StartIsRecorded(drive: Drive, concurrency: nat, ids: seq<Id>, whole: bool)
    requires KnowsRoots(drive, ids)
    ensures ReachedTables(drive, concurrency, Seeded(drive, ids), whole, Seeded(drive, ids))
  {
    StartIsReached(drive, concurrency, Seeded(drive, ids), whole);
  }

  lemma ResumeIsRecorded(drive: Drive, concurrency: nat, start: Durable, whole: bool, d: Durable, order: seq<Work>)
    requires ReachedTables(drive, concurrency, start, whole, d) && IsListing(d, order)
    ensures Reached(drive, concurrency, start, whole, RunState(d, [], order))
  {
    var wave, queue :| Reached(drive, concurrency, start, whole, RunState(d, wave, queue));
    ReachedNext(drive, concurrency, start, whole, RunState(d, wave, queue), Resume(order));
  }

  lemma WaveIsRecorded(drive: Drive, concurrency: nat, start: Durable, whole: bool, d: Durable, queue: seq<Work>)
    requires Reached(drive, concurrency, start, whole, RunState(d, [], queue)) && queue != []
    ensures
      var size := WaveSize(queue, concurrency);
      Reached(drive, concurrency, start, whole, RunState(d, queue[..size], queue[size..]))
  {
    ReachedNext(drive, concurrency, start, whole, RunState(d, [], queue), TakeWave);
  }

  /** What a page leaves when its run ends with it: a part of its rows, or its end. */
  ghost predicate StoppedIn(drive: Drive, d: Durable, w: Work, e: Durable) {
    OnDrive(drive, w)
    && var plan := PlanFor(drive, d, w);
       e == AfterPage(drive, d, w) || exists n :: ChunkEnd(n, |plan.rows|) && e == PageCut(d, plan, n)
  }

  lemma StopIsRecorded(drive: Drive, concurrency: nat, start: Durable, whole: bool, s: RunState, i: nat, e: Durable)
    requires Reached(drive, concurrency, start, whole, s)
    requires i < |s.wave| && StoppedIn(drive, s.tables, s.wave[i], e)
    ensures ReachedTables(drive, concurrency, start, false, e)
  {
    if e == AfterPage(drive, s.tables, s.wave[i]) {
      ReachedNext(drive, concurrency, start, whole, s, Page(i));
      var after := After(drive, concurrency, s, Page(i));
      assert Reached(drive, concurrency, start, false, RunState(e, after.wave, after.queue));
    } else {
      var plan := PlanFor(drive, s.tables, s.wave[i]);
      var n: nat :| ChunkEnd(n, |plan.rows|) && e == PageCut(s.tables, plan, n);
      ReachedNext(drive, concurrency, start, whole, s, StopInPage(i, n));
    }
  }

  lemma ReachedIsLeafFirst(drive: Drive, concurrency: nat, ids: seq<Id>, whole: bool, d: Durable)
    requires KnowsRoots(drive, ids)
    requires ReachedTables(drive, concurrency, Seeded(drive, ids), whole, d)
    requires PagesFit(drive, SCAN_CHECKPOINT_BATCH_SIZE) || whole
    ensures LeafFirst(drive, ToSet(ids), d)
  {
    var wave, queue :| Reached(drive, concurrency, Seeded(drive, ids), whole, RunState(d, wave, queue));
    var events :| StateAfter(drive, concurrency, Seeded(drive, ids), events) == Some(RunState(d, wave, queue))
                  && (whole ==> NoStopInPage(events));
    HistoryKeepsOrder(drive, concurrency, ids, events);
  }
}
