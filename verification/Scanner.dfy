/** The scan worker itself: seeding, the wave loop and the chunked commits of a page, over fallible tables.
    A commit that reports an error may or may not have taken effect; that is also what a crash leaves behind. */
module Scanner {
  import opened Items
  import opened Classifier
  import opened ScanModel
  import opened ScanInvariant
  import opened ScanSeed
  import opened ScanMeasure
  import opened ScanOrder
  import opened ScanHistories

  datatype StoreResult = Committed | DatabaseError | BatchTooLarge

  datatype ScanError = ListingFailed | LookupFailed | StoreFailed

  datatype Outcome = Completed | Paused | Failed(error: ScanError)

  datatype ChildPage = ChildPage(files: seq<DriveChild>, next: Option<nat>)

  class ScanStore {
    const faulty: bool
    var items: map<Id, Item>
    var checkpoints: map<Id, Checkpoint>

    ghost function State(): Durable
      reads this
    {
      Durable(items, checkpoints)
    }

    constructor (faulty: bool)
      ensures State() == EMPTY && this.faulty == faulty
    {
      this.faulty := faulty;
      items, checkpoints := map[], map[];
    }

    method InsertScanBatch(b: Batch)
      modifies this
      ensures State() == ApplyBatch(old(State()), b)
    {
      for i := 0 to |b.items|
        invariant items == InsertAll(old(items), b.items[..i]) && checkpoints == old(checkpoints)
      {
        assert b.items[..i + 1][..i] == b.items[..i];
        if b.items[i].0 !in items { items := items[b.items[i].0 := b.items[i].1]; }
      }
      assert b.items[..|b.items|] == b.items;
      for i := 0 to |b.upserts|
        invariant items == InsertAll(old(items), b.items)
        invariant checkpoints == UpsertAll(old(checkpoints), b.upserts[..i])
      {
        assert b.upserts[..i + 1][..i] == b.upserts[..i];
        checkpoints := checkpoints[b.upserts[i].0 := b.upserts[i].1];
      }
      assert b.upserts[..|b.upserts|] == b.upserts;
      for i := 0 to |b.deletes|
        invariant items == InsertAll(old(items), b.items)
        invariant checkpoints == DeleteAll(UpsertAll(old(checkpoints), b.upserts), b.deletes[..i])
      {
        assert b.deletes[..i + 1][..i] == b.deletes[..i];
        checkpoints := checkpoints - {b.deletes[i]};
      }
      assert b.deletes[..|b.deletes|] == b.deletes;
    }

    /** One transaction. */
    method CommitScanBatch(b: Batch) returns (r: StoreResult)
      modifies this
      ensures r == BatchTooLarge <==> |b.items| > SCAN_CHECKPOINT_BATCH_SIZE
      ensures r == BatchTooLarge ==> State() == old(State())
      ensures !faulty && |b.items| <= SCAN_CHECKPOINT_BATCH_SIZE ==> r == Committed
      ensures r == Committed ==> State() == ApplyBatch(old(State()), b)
      ensures r == DatabaseError ==> State() == old(State()) || State() == ApplyBatch(old(State()), b)
    {
      if |b.items| > SCAN_CHECKPOINT_BATCH_SIZE { return BatchTooLarge; }
      var aborted: bool := *;
      if faulty && aborted { return DatabaseError; }
      InsertScanBatch(b);
      var reported: bool := *;
      r := if reported || !faulty then Committed else DatabaseError;
    }

    /** The roots of a new job, all in one transaction whatever their number. */
    method CreateSeededScan(roots: Roots) returns (r: StoreResult)
      modifies this
      ensures r != BatchTooLarge && (!faulty ==> r == Committed)
      ensures r == Committed ==> State() == ApplyBatch(old(State()), Batch(roots.items, roots.upserts, []))
      ensures r == DatabaseError ==>
                State() == old(State()) || State() == ApplyBatch(old(State()), Batch(roots.items, roots.upserts, []))
    {
      var aborted: bool := *;
      if faulty && aborted { return DatabaseError; }
      InsertScanBatch(Batch(roots.items, roots.upserts, []));
      var reported: bool := *;
      r := if reported || !faulty then Committed else DatabaseError;
    }

    /** Every checkpoint once, in no particular order. */
    method ListScanCheckpoints() returns (work: seq<Work>)
      ensures forall w :: w in work <==> w.folder in checkpoints && w == AsWork(w.folder, checkpoints[w.folder])
      ensures |work| == |checkpoints| && OnceEach(work)
    {
      work := [];
      var left := checkpoints.Keys;
      while left != {}
        invariant left <= checkpoints.Keys
        invariant |work| + |left| == |checkpoints| && OnceEach(work)
        invariant forall w :: w in work <==>
                    w.folder in checkpoints && w.folder !in left && w == AsWork(w.folder, checkpoints[w.folder])
        decreases left
      {
        var f :| f in left;
        left := left - {f};
        work := work + [AsWork(f, checkpoints[f])];
      }
    }
  }

  class ScanRun {
    const drive: Drive
    const rootIds: seq<Id>
    const concurrency: nat
    const store: ScanStore
    var visited: set<Id>
    var queue: seq<Work>

    constructor (drive: Drive, rootIds: seq<Id>, concurrency: nat, store: ScanStore)
      ensures this.drive == drive && this.rootIds == rootIds && this.store == store
      ensures this.concurrency == concurrency
    {
      this.drive, this.rootIds, this.concurrency, this.store := drive, rootIds, concurrency, store;
      visited, queue := {}, [];
    }

    /** One listing call: it may fail, and it fails for a folder the Drive does not know. */
    method ListChildren(w: Work) returns (r: Option<ChildPage>)
      requires w.folder in drive.listing ==> w.page < |drive.listing[w.folder]|
      ensures r.Some? ==>
                && w.folder in drive.listing
                && r.value.files == PageOf(drive, w)
                && r.value.next == NextToken(drive, w)
      ensures !store.faulty && w.folder in drive.listing ==> r.Some?
    {
      var answered: bool := *;
      if (store.faulty && !answered) || w.folder !in drive.listing { return None; }
      var next := if w.page + 1 < |drive.listing[w.folder]| then Some(w.page + 1) else None;
      r := Some(ChildPage(drive.listing[w.folder][w.page], next));
    }

    /** One lookup; it fails for an id the Drive does not know. */
    method GetFile(id: Id) returns (r: Option<DriveChild>)
      ensures r.Some? ==> id in drive.files && r.value == drive.files[id].(shortcutTargetId := None)
      ensures !store.faulty && id in drive.files ==> r.Some?
    {
      var answered: bool := *;
      r := if (answered || !store.faulty) && id in drive.files then Some(drive.files[id].(shortcutTargetId := None))
           else None;
    }

    /** Looks one root up, unless it has been seen. */
    method CollectRoot(id: Id, recursive: bool, seen: set<Id>, roots: Roots, ghost kept: seq<Id>)
      returns (ok: bool, nowSeen: set<Id>, now: Roots, ghost nowKept: seq<Id>)
      requires seen == ToSet(kept) <= drive.files.Keys && Collected(drive, kept, recursive, roots)
      ensures ok ==>
                && nowKept == (if id in kept then kept else kept + [id])
                && nowSeen == ToSet(nowKept) <= drive.files.Keys && Collected(drive, nowKept, recursive, now)
      ensures !store.faulty && id in drive.files ==> ok
    {
      if id in seen { return true, seen, roots, kept; }
      var child := GetFile(id);
      if child.None? { return false, seen, roots, kept; }
      var disposition := Classify(child.value, drive.source, drive.target);
      CollectStep(drive, kept, recursive, roots, id);
      now := Roots(roots.items + [(id, Item(disposition.ItemState(), 0))],
                   if recursive && disposition.ShouldRecurse() then roots.upserts + [(id, Checkpoint(0, 0))]
                       else roots.upserts);
      ok, nowSeen, nowKept := true, seen + {id}, kept + [id];
    }

    /** Looks the roots up one by one; a failed lookup fails the whole collection before anything is written. */
    method CollectRoots(recursive: bool) returns (r: Option<Roots>)
      ensures r.Some? ==>
                && ToSet(rootIds) <= drive.files.Keys
                && r.value.items == SeedRows(drive, Dedup(rootIds))
                && r.value.upserts == if recursive then SeedFolders(drive, Dedup(rootIds)) else []
      ensures !store.faulty && KnowsRoots(drive, rootIds) ==> r.Some?
    {
      var seen: set<Id> := {};
      var roots := Roots([], []);
      ghost var kept: seq<Id> := [];
      for i := 0 to |rootIds|
        invariant kept == Dedup(rootIds[..i])
        invariant seen == ToSet(kept) <= drive.files.Keys && Collected(drive, kept, recursive, roots)
      {
        var ok;
        DedupStep(rootIds, i);
        ok, seen, roots, kept := CollectRoot(rootIds[i], recursive, seen, roots, kept);
        if !ok { return None; }
      }
      assert rootIds[..|rootIds|] == rootIds;
      r := Some(roots);
    }

    /** Commits the roots chunk by chunk, each chunk with the checkpoints of its own folders. */
    method PersistRoots(ghost ids: seq<Id>, roots: Roots) returns (r: StoreResult, ghost done: nat)
      requires Distinct(ids) && forall id :: id in ids ==> id in drive.files
      requires roots == Roots(SeedRows(drive, ids), SeedFolders(drive, ids))
      requires store.State() == EMPTY
      modifies store
      ensures done <= |ids| && ChunkEnd(done, |ids|)
      ensures store.State() == Seeded(drive, ids[..done])
      ensures r == Committed ==> done == |ids|
      ensures r != BatchTooLarge && (!store.faulty ==> r == Committed)
    {
      SeedRowsMeaning(drive, ids);
      done := 0;
      var lo := 0;
      while lo < |roots.items|
        invariant done == lo <= |ids| && ChunkEnd(lo, |ids|)
        invariant store.State() == Seeded(drive, ids[..lo])
        decreases |ids| - lo
      {
        r, done := PersistChunk(ids, roots, lo);
        if r != Committed { return; }
        lo := Min(lo + SCAN_CHECKPOINT_BATCH_SIZE, |roots.items|);
      }
      assert ids[..lo] == ids;
      r := Committed;
    }

    method PersistChunk(ghost ids: seq<Id>, roots: Roots, lo: nat) returns (r: StoreResult, ghost done: nat)
      requires Distinct(ids) && forall id :: id in ids ==> id in drive.files
      requires roots == Roots(SeedRows(drive, ids), SeedFolders(drive, ids))
      requires lo < |roots.items| == |ids| && store.State() == Seeded(drive, ids[..lo])
      modifies store
      ensures done == lo || done == Min(lo + SCAN_CHECKPOINT_BATCH_SIZE, |ids|)
      ensures store.State() == Seeded(drive, ids[..done])
      ensures r == Committed ==> done > lo
      ensures r != BatchTooLarge && (!store.faulty ==> r == Committed)
    {
      var hi := Min(lo + SCAN_CHECKPOINT_BATCH_SIZE, |roots.items|);
      var chunk := roots.items[lo..hi];
      ChunkIsSeed(drive, ids, lo, hi);
      SeedMore(drive, ids, lo, hi);
      r := store.CommitScanBatch(Batch(chunk, UpsertsOf(chunk, roots.upserts), []));
      done := if r == Committed || store.State() != Seeded(drive, ids[..lo]) then hi else lo;
    }

    /** The children met for the first time become item rows; those to descend into also folder checkpoints. */
    method Discover(page: seq<DriveChild>, depth: int)
      returns (discovered: seq<(Id, Item)>, folders: seq<(Id, Checkpoint)>)
      modifies `visited
      ensures visited == old(visited) + Ids(page)
      ensures Plan(discovered, folders) == PlanPage(drive, old(visited), page, depth)
    {
      discovered, folders := [], [];
      for i := 0 to |page|
        invariant PlanSoFar(drive, old(visited), page, depth, i, visited, Plan(discovered, folders))
      {
        var child := page[i];
        DiscoverStep(drive, old(visited), page, depth, i, visited, Plan(discovered, folders));
        if child.id !in visited {
          visited := visited + {child.id};
          var disposition := Classify(child, drive.source, drive.target);
          discovered := discovered + [(child.id, Item(disposition.ItemState(), depth))];
          if disposition.ShouldRecurse() { folders := folders + [(child.id, Checkpoint(0, depth))]; }
        }
      }
      assert page[..|page|] == page;
    }

    /** Commits a page's rows at most a hundred at a time, each batch with as many of the folder checkpoints as it has
        rows; no checkpoint is ever left for the batch after the last row. */
    method CommitRows(discovered: seq<(Id, Item)>, folders: seq<(Id, Checkpoint)>)
      returns (r: StoreResult, ghost n: nat)
      requires |folders| <= |discovered|
      modifies store
      ensures r != BatchTooLarge && (!store.faulty ==> r == Committed)
      ensures n <= |discovered| && store.State() == PageCut(old(store.State()), Plan(discovered, folders), n)
      ensures ChunkEnd(n, |discovered|) && (r == Committed ==> n == |discovered|)
    {
      ghost var plan, start := Plan(discovered, folders), store.State();
      var remainingItems, remainingFolders := discovered, folders;
      r, n := Committed, 0;
      while remainingItems != []
        invariant AreLeft(plan, n, remainingItems, remainingFolders)
        invariant store.State() == PageCut(start, plan, n)
        invariant r == Committed
        decreases |remainingItems|
      {
        r, remainingItems, remainingFolders, n := CommitNext(remainingItems, remainingFolders, plan, start, n);
        if r != Committed { return; }
      }
      // The source commits folder checkpoints left over here; there never are any.
      assert remainingFolders == [];
    }

    /** Commits the next batch of a page; `m` rows are in afterwards. */
    method CommitNext(
      items: seq<(Id, Item)>, folders: seq<(Id, Checkpoint)>, ghost plan: Plan, ghost start: Durable, ghost n: nat)
      returns (r: StoreResult, restItems: seq<(Id, Item)>, restFolders: seq<(Id, Checkpoint)>, ghost m: nat)
      requires AreLeft(plan, n, items, folders) && items != []
      requires store.State() == PageCut(start, plan, n)
      modifies store
      ensures r != BatchTooLarge && (!store.faulty ==> r == Committed)
      ensures ChunkEnd(m, |plan.rows|) && store.State() == PageCut(start, plan, m)
      ensures r == Committed ==> AreLeft(plan, m, restItems, restFolders) && |restItems| < |items|
    {
      var take := Min(|items|, SCAN_CHECKPOINT_BATCH_SIZE);
      var upsertTake := Min(|folders|, take);
      BatchTaken(plan, n);
      CutGrows(start, plan, n, take);
      r := store.CommitScanBatch(Batch(items[..take], folders[..upsertTake], []));
      m := if store.State() == PageCut(start, plan, n + take) then n + take else n;
      restItems, restFolders := items[take..], folders[upsertTake..];
    }

    /** Moves the listed folder's own checkpoint to its next page, or drops it after the last. */
    method MoveOn(folder: Id, depth: int, next: Option<nat>) returns (r: StoreResult)
      modifies `queue, store
      ensures r != BatchTooLarge && (!store.faulty ==> r == Committed)
      ensures r == Committed ==>
                && store.State() == Advance(old(store.State()), folder, depth, next)
                && queue == old(queue) + NextWork(folder, depth, next)
      ensures r != Committed ==>
                && queue == old(queue)
                && (store.State() == old(store.State())
                    || store.State() == Advance(old(store.State()), folder, depth, next))
    {
      match next {
        case Some(page) =>
          var row := (folder, Checkpoint(page, depth));
          assert UpsertAll(store.checkpoints, [row]) == store.checkpoints[folder := row.1] by {
            assert [row][..0] == [];
          }
          r := store.CommitScanBatch(Batch([], [row], []));
          if r != Committed { return; }
          queue := queue + [Work(folder, page, depth)];
        case None =>
          assert DeleteAll(store.checkpoints, [folder]) == store.checkpoints - {folder} by {
            assert [folder][..0] == [];
          }
          r := store.CommitScanBatch(Batch([], [], [folder]));
      }
    }

    /** Applies one listed page: its rows first, the folder's own checkpoint last, and only then the queue. */
    method ApplyPage(folder: Id, depth: int, page: ChildPage) returns (r: StoreResult)
      requires visited == store.items.Keys
      modifies `visited, `queue, store
      ensures r != BatchTooLarge && (!store.faulty ==> r == Committed)
      ensures r == Committed ==>
                var plan := PlanPage(drive, old(visited), page.files, depth + 1);
                && store.State() == PageEnd(old(store.State()), plan, folder, depth, page.next)
                && visited == old(visited) + Ids(page.files)
                && queue == old(queue) + (NextWork(folder, depth, page.next) + FolderWork(plan.folders))
      ensures r != Committed ==>
                var plan := PlanPage(drive, old(visited), page.files, depth + 1);
                || store.State() == PageEnd(old(store.State()), plan, folder, depth, page.next)
                || exists n :: ChunkEnd(n, |plan.rows|) && store.State() == PageCut(old(store.State()), plan, n)
    {
      var discovered, folders := Discover(page.files, depth + 1);
      ghost var n;
      r, n := CommitRows(discovered, folders);
      if r != Committed { return; }
      r := MoveOn(folder, depth, page.next);
      if r != Committed { return; }
      queue := queue + FolderWork(folders);
    }

    /** One run, from whatever an earlier pause, error or crash left behind. `seeded` is the part of the roots the
        tables hold: empty before the first commit, and after that what the seeding managed to write. */
    method RunScan(ghost seeded: seq<Id>, ghost whole: bool) returns (outcome: Outcome, ghost now: seq<Id>)
      requires drive.Valid()
      requires seeded <= Dedup(rootIds)
      requires Resumable(drive, ToSet(seeded), store.State())
      modifies `visited, `queue, store
      ensures now <= Dedup(rootIds) && Resumable(drive, ToSet(now), store.State())
      ensures if seeded == [] then ChunkEnd(|now|, |Dedup(rootIds)|) else now == seeded
      ensures outcome == Completed ==> store.checkpoints == map[]
      ensures seeded == [] && outcome != Failed(StoreFailed) ==>
                now == if outcome == Failed(LookupFailed) then [] else Dedup(rootIds)
      ensures seeded == [] || seeded == Dedup(rootIds) ==>
                (!store.faulty && KnowsRoots(drive, rootIds) && AllListed(drive, ToSet(rootIds)) ==>
                    outcome == Completed)
      ensures seeded == [] || old(Recorded(seeded, whole)) ==> Recorded(now, whole && outcome != Failed(StoreFailed))
    {
      var error;
      error, now := Begin(seeded, whole);
      if error.Some? { return Failed(error.value), now; }
      outcome := RunWaves(now, whole);
    }

    /** Reads the tables, and seeds empty ones. */
    method Begin(ghost seeded: seq<Id>, ghost whole: bool) returns (error: Option<ScanError>, ghost now: seq<Id>)
      requires drive.Valid()
      requires Resumable(drive, ToSet(seeded), store.State())
      modifies `visited, `queue, store
      ensures error.None? ==> Live(now, [])
      ensures error != None ==> Resumable(drive, ToSet(now), store.State())
      ensures if seeded == [] then now <= Dedup(rootIds) && ChunkEnd(|now|, |Dedup(rootIds)|) else now == seeded
      ensures seeded == [] && error != Some(StoreFailed) ==> now == if error.None? then Dedup(rootIds) else []
      ensures !store.faulty && KnowsRoots(drive, rootIds) ==> error.None?
      ensures error.Some? ==> error.value.LookupFailed? || error.value.StoreFailed?
      ensures seeded == [] || old(Recorded(seeded, whole)) ==>
                Recorded(now, whole) && (error.None? ==> Following(now, whole, []))
    {
      now := seeded;
      error := None;
      visited := store.items.Keys;
      RootsLeaveRows(drive, seeded, store.State());
      if store.checkpoints == map[] && visited == {} {
        error, now := SeedRoots(whole);
        if error.Some? { return; }
        visited := store.items.Keys;
      }
      LoadQueue(now, whole);
    }

    method LoadQueue(ghost now: seq<Id>, ghost whole: bool)
      requires Resumable(drive, ToSet(now), store.State()) && visited == store.items.Keys
      modifies `queue
      ensures Live(now, []) && (Recorded(now, whole) ==> Following(now, whole, []))
    {
      queue := store.ListScanCheckpoints();
      CheckpointsArePending(drive, ToSet(now), store.State(), queue);
      if Recorded(now, whole) { ResumeIsRecorded(drive, concurrency, Seeded(drive, now), whole, store.State(), queue); }
    }

    /** The wave loop; the pause flag is read before each wave. */
    method RunWaves(ghost now: seq<Id>, ghost whole: bool) returns (outcome: Outcome)
      requires drive.Valid() && Live(now, [])
      modifies `visited, `queue, store
      ensures Resumable(drive, ToSet(now), store.State())
      ensures outcome == Completed ==> store.checkpoints == map[]
      ensures !store.faulty && AllListed(drive, ToSet(now)) ==> outcome == Completed
      ensures outcome != Failed(LookupFailed)
      ensures old(Following(now, whole, [])) ==> Recorded(now, whole && outcome != Failed(StoreFailed))
    {
      while queue != []
        invariant Live(now, [])
        invariant old(Following(now, whole, [])) ==> Following(now, whole, [])
        decreases Left(drive, Now([]))
      {
        var pause: bool := *;
        if store.faulty && pause { return Paused; }
        var wave := TakeNext(now, whole);
        outcome := RunWave(now, whole, wave);
        if outcome != Completed { return; }
      }
      assert forall f :: f in store.checkpoints ==> Queued(queue, f);
      outcome := Completed;
    }

    method TakeNext(ghost now: seq<Id>, ghost whole: bool) returns (wave: seq<Work>)
      requires Live(now, []) && queue != []
      modifies `queue
      ensures old(queue) == wave + queue && |wave| == Min(|old(queue)|, if concurrency == 0 then 1 else concurrency)
      ensures wave != [] && Live(now, wave) && Left(drive, Now(wave)) == old(Left(drive, Now([])))
      ensures old(Following(now, whole, [])) ==> Following(now, whole, wave)
    {
      var waveSize := WaveSize(queue, concurrency);
      wave := queue[..waveSize];
      WaveIsWorkable(drive, ToSet(now), store.State(), queue, waveSize);
      if Following(now, whole, []) {
        WaveIsRecorded(drive, concurrency, Seeded(drive, now), whole, store.State(), queue);
      }
      queue := queue[waveSize..];
    }

    ghost function Now(wave: seq<Work>): RunState
      reads this, store
    {
      RunState(store.State(), wave, queue)
    }

    /** Tables, visited set and queue as the wave loop finds them. */
    ghost predicate Live(now: seq<Id>, wave: seq<Work>)
      reads this, store
    {
      visited == store.items.Keys && Workable(drive, ToSet(now), Now(wave))
    }

    /** The tables, the wave and the queue are those of a history from the seeding of these roots; if `whole`, of one
        in which no run was stopped inside a page. */
    ghost predicate Following(now: seq<Id>, whole: bool, wave: seq<Work>)
      reads this, store
    {
      KnowsRoots(drive, now) && Reached(drive, concurrency, Seeded(drive, now), whole, Now(wave))
    }

    ghost predicate Recorded(now: seq<Id>, whole: bool)
      reads this, store
    {
      KnowsRoots(drive, now) && ReachedTables(drive, concurrency, Seeded(drive, now), whole, store.State())
    }

    method SeedRoots(ghost whole: bool) returns (error: Option<ScanError>, ghost now: seq<Id>)
      requires drive.Valid() && store.State() == EMPTY
      modifies store
      ensures now <= Dedup(rootIds) && ChunkEnd(|now|, |Dedup(rootIds)|)
      ensures Resumable(drive, ToSet(now), store.State())
      ensures error.None? ==> now == Dedup(rootIds)
      ensures error == Some(LookupFailed) ==> now == []
      ensures error.Some? ==> error.value.LookupFailed? || error.value.StoreFailed?
      ensures Recorded(now, whole)
      ensures !store.faulty && KnowsRoots(drive, rootIds) ==> error.None?
    {
      now := [];
      assert ChunkEnd(0, |Dedup(rootIds)|);
      var roots := CollectRoots(true);
      if roots.None? {
        StartIsRecorded(drive, concurrency, now, whole);
        return Some(LookupFailed), now;
      }
      var r;
      ghost var done;
      r, done := PersistRoots(Dedup(rootIds), roots.value);
      now := Dedup(rootIds)[..done];
      SeedIsResumable(drive, now);
      StartIsRecorded(drive, concurrency, now, whole);
      error := if r == Committed then None else Some(StoreFailed);
    }

    /** The pages of one wave arrive in any order; the first failure ends the run. */
    method RunWave(ghost now: seq<Id>, ghost whole: bool, pages: seq<Work>) returns (outcome: Outcome)
      requires drive.Valid() && pages != []
      requires Live(now, pages)
      modifies `visited, `queue, store
      ensures Resumable(drive, ToSet(now), store.State())
      ensures outcome == Completed ==>
                Live(now, []) && Left(drive, Now([])) < old(Left(drive, Now(pages)))
      ensures !store.faulty && AllListed(drive, ToSet(now)) ==> outcome == Completed
      ensures outcome != Paused && outcome != Failed(LookupFailed)
      ensures old(Following(now, whole, pages)) ==> Recorded(now, whole && outcome != Failed(StoreFailed))
      ensures old(Following(now, whole, pages)) && outcome == Completed ==> Following(now, whole, [])
    {
      var wave := pages;
      while wave != []
        invariant Live(now, wave)
        invariant Left(drive, Now(wave)) + |pages| - |wave| <= old(Left(drive, Now(pages)))
        invariant |wave| <= |pages|
        invariant old(Following(now, whole, pages)) ==> Following(now, whole, wave)
        decreases |wave|
      {
        var i :| 0 <= i < |wave|;
        var error := RunPage(now, whole, wave, i);
        if error.Some? { return Failed(error.value); }
        wave := Without(wave, i);
      }
      assert wave + queue == queue;
      outcome := Completed;
    }

    method RunPage(ghost now: seq<Id>, ghost whole: bool, wave: seq<Work>, i: nat) returns (error: Option<ScanError>)
      requires drive.Valid() && i < |wave| && Live(now, wave)
      modifies `visited, `queue, store
      ensures Resumable(drive, ToSet(now), store.State())
      ensures error.None? ==>
                && Live(now, Without(wave, i))
                && Left(drive, Now(Without(wave, i))) < old(Left(drive, Now(wave)))
      ensures !store.faulty && AllListed(drive, ToSet(now)) ==> error.None?
      ensures error.Some? ==> error.value.ListingFailed? || error.value.StoreFailed?
      ensures old(Following(now, whole, wave)) ==> Recorded(now, whole && error != Some(StoreFailed))
      ensures old(Following(now, whole, wave)) && error.None? ==> Following(now, whole, Without(wave, i))
    {
      ghost var before, recorded := Now(wave), Following(now, whole, wave);
      assert wave[i] in wave + queue;
      error := StepPage(wave, i);
      if error.None? {
        ghost var after := After(drive, concurrency, before, Page(i));
        PageStep(drive, concurrency, ToSet(now), before, i);
        assert store.State() == after.tables;
        if recorded {
          ReachedNext(drive, concurrency, Seeded(drive, now), whole, before, Page(i));
          TablesAreReached(drive, concurrency, Seeded(drive, now), whole, after);
        }
      } else if error.value.StoreFailed? {
        StopIsResumable(drive, ToSet(now), before.tables, wave[i], store.State());
        if recorded { StopIsRecorded(drive, concurrency, Seeded(drive, now), whole, before, i, store.State()); }
      } else {
        assert store.State() == before.tables;
        if recorded { TablesAreReached(drive, concurrency, Seeded(drive, now), whole, before); }
      }
    }

    method StepPage(wave: seq<Work>, i: nat) returns (error: Option<ScanError>)
      requires i < |wave| && visited == store.items.Keys
      requires wave[i].folder in drive.listing ==> OnDrive(drive, wave[i])
      modifies `visited, `queue, store
      ensures !store.faulty && wave[i].folder in drive.listing ==> error.None?
      ensures error.Some? ==> error.value.ListingFailed? || error.value.StoreFailed?
      ensures error == Some(ListingFailed) ==>
                store.State() == old(store.State()) && queue == old(queue) && visited == old(visited)
      ensures error == Some(StoreFailed) ==> StoppedIn(drive, old(store.State()), wave[i], store.State())
      ensures error.None? ==>
                && OnDrive(drive, wave[i])
                && Now(Without(wave, i)) == After(drive, concurrency, old(Now(wave)), Page(i))
                && visited == old(visited) + Ids(PageOf(drive, wave[i]))
    {
      ghost var before := Now(wave);
      var page := ListChildren(wave[i]);
      if page.None? { return Some(ListingFailed); }
      var r := ApplyPage(wave[i].folder, wave[i].depth, page.value);
      error := if r == Committed then None else Some(StoreFailed);
      if r == Committed {
        ghost var after := After(drive, concurrency, before, Page(i));
        assert store.State() == after.tables;
        assert queue == after.queue;
      }
    }

    /** Any history of runs: each may be paused, fail or be cut short at any commit, and the next resumes from the
        tables alone. When one completes, the tables hold exactly what is reachable from the roots, and they are those
        of a recorded history. */
    method ScanHistory(ghost seeded: seq<Id>, runs: nat) returns (outcome: Outcome)
      requires drive.Valid()
      requires seeded == [] || seeded == Dedup(rootIds)
      requires Resumable(drive, ToSet(seeded), store.State())
      requires seeded == [] ==> |Dedup(rootIds)| <= SCAN_CHECKPOINT_BATCH_SIZE
      modifies `visited, `queue, store
      ensures outcome == Completed ==>
                && Exact(drive, ToSet(rootIds), store.State())
                && store.checkpoints == map[]
      ensures outcome == Completed && (seeded == [] || old(Recorded(seeded, false))) ==> Recorded(Dedup(rootIds), false)
      ensures !store.faulty && runs > 0 && KnowsRoots(drive, rootIds) && AllListed(drive, ToSet(rootIds)) ==>
                outcome == Completed
    {
      outcome := Paused;
      ghost var now := seeded;
      for i := 0 to runs
        invariant now == [] || now == Dedup(rootIds)
        invariant now == [] ==> |Dedup(rootIds)| <= SCAN_CHECKPOINT_BATCH_SIZE
        invariant Resumable(drive, ToSet(now), store.State())
        invariant seeded == [] || old(Recorded(seeded, false)) ==> now == [] || Recorded(now, false)
        invariant outcome != Completed
        invariant !store.faulty && KnowsRoots(drive, rootIds) && AllListed(drive, ToSet(rootIds)) ==> i == 0
      {
        outcome, now := RunScan(now, false);
        if outcome == Completed { break; }
      }
      if outcome == Completed { CompletedScanIsExact(drive, ToSet(rootIds), store.State()); }
    }

    /** Such a history of a Drive whose pages fit one batch keeps the leaf-first order, however its runs are stopped. */
    method SmallPageHistory(runs: nat) returns (outcome: Outcome)
      requires drive.Valid() && store.State() == EMPTY && PagesFit(drive, SCAN_CHECKPOINT_BATCH_SIZE)
      requires |Dedup(rootIds)| <= SCAN_CHECKPOINT_BATCH_SIZE
      modifies `visited, `queue, store
      ensures outcome == Completed ==> LeafFirst(drive, ToSet(rootIds), store.State())
    {
      assert ToSet([]) == {};
      outcome := ScanHistory([], runs);
      if outcome == Completed { ReachedIsLeafFirst(drive, concurrency, Dedup(rootIds), false, store.State()); }
    }

    /** Pages of any size, but no commit fails: runs pause, or stop at a listing that fails, and are resumed. The order
        is leaf first as well. */
    method WholePageHistory(runs: nat) returns (outcome: Outcome)
      requires drive.Valid() && store.State() == EMPTY
      modifies `visited, `queue, store
      ensures outcome == Completed ==>
                Exact(drive, ToSet(rootIds), store.State()) && LeafFirst(drive, ToSet(rootIds), store.State())
    {
      outcome := Paused;
      ghost var now := [];
      assert ToSet(now) == {};
      for i := 0 to runs
        invariant Resumable(drive, ToSet(now), store.State())
        invariant now == [] || (now == Dedup(rootIds) && Recorded(now, true))
        invariant outcome != Completed
      {
        outcome, now := RunScan(now, true);
        if outcome == Completed || outcome == Failed(StoreFailed) { break; }
      }
      if outcome == Completed {
        CompletedScanIsExact(drive, ToSet(rootIds), store.State());
        ReachedIsLeafFirst(drive, concurrency, now, true, store.State());
      }
    }

    /** A new job with its scan begun: all roots, however many, in one transaction. */
    method StartSeededScan() returns (r: StoreResult)
      requires drive.Valid() && store.State() == EMPTY
      modifies store
      ensures r == Committed ==> Resumable(drive, ToSet(rootIds), store.State()) && Recorded(Dedup(rootIds), false)
      ensures r != Committed ==> store.State() == EMPTY || Resumable(drive, ToSet(rootIds), store.State())
      ensures !store.faulty && KnowsRoots(drive, rootIds) ==> r == Committed
    {
      var roots := CollectRoots(true);
      if roots.None? { return DatabaseError; }
      r := store.CreateSeededScan(roots.value);
      assert KnowsRoots(drive, Dedup(rootIds)) by { assert ToSet(Dedup(rootIds)) == ToSet(rootIds); }
      SeedIsResumable(drive, Dedup(rootIds));
      StartIsRecorded(drive, concurrency, Dedup(rootIds), false);
    }

    /** Such a job, scanned by any number of runs, each stopped anywhere: once one completes, nothing is missing, and
        where pages fit one batch the order is leaf first. */
    method SeededHistory(runs: nat) returns (outcome: Outcome)
      requires drive.Valid() && store.State() == EMPTY
      modifies `visited, `queue, store
      ensures outcome == Completed ==> Exact(drive, ToSet(rootIds), store.State()) && store.checkpoints == map[]
      ensures outcome == Completed && PagesFit(drive, SCAN_CHECKPOINT_BATCH_SIZE) ==>
                LeafFirst(drive, ToSet(rootIds), store.State())
      ensures !store.faulty && runs > 0 && KnowsRoots(drive, rootIds) && AllListed(drive, ToSet(rootIds)) ==>
                outcome == Completed
    {
      var r := StartSeededScan();
      if r != Committed { return Failed(StoreFailed); }
      outcome := ScanHistory(Dedup(rootIds), runs);
      if outcome == Completed && PagesFit(drive, SCAN_CHECKPOINT_BATCH_SIZE) {
        ReachedIsLeafFirst(drive, concurrency, Dedup(rootIds), false, store.State());
      }
    }
  }

  /** Drive lists every folder the scan descends into. */
  ghost predicate AllListed(drive: Drive, roots: set<Id>) {
    forall f :: Recurses(drive, roots, f) ==> f in drive.listing
  }

  /** The first `n` children of a page, sorted into those met before and the plan for the new ones. */
  predicate PlanSoFar(
    drive: Drive, before: set<Id>, page: seq<DriveChild>, depth: int, n: nat, visited: set<Id>, plan: Plan)
    requires n <= |page|
  {
    visited == before + Ids(page[..n]) && plan == PlanPage(drive, before, page[..n], depth)
  }

  /** A child met before adds nothing; a new one adds its row and, if the scan descends into it, its checkpoint. */
  lemma DiscoverStep(
    drive: Drive, before: set<Id>, page: seq<DriveChild>, depth: int, i: nat, visited: set<Id>, plan: Plan)
    requires i < |page| && PlanSoFar(drive, before, page, depth, i, visited, plan)
    ensures
      var child := page[i];
      if child.id in visited then PlanSoFar(drive, before, page, depth, i + 1, visited, plan)
      else PlanSoFar(drive, before, page, depth, i + 1, visited + {child.id}, PlanWith(drive, plan, child, depth))
  {
    MeetingChild(before, page, i);
    if page[i].id in visited {
      PlanStays(drive, before, page, depth, i);
    } else {
      PlanGrows(drive, before, page, depth, i);
    }
  }

  lemma MeetingChild(before: set<Id>, page: seq<DriveChild>, i: nat)
    requires i < |page|
    ensures before + Ids(page[..i + 1]) == before + Ids(page[..i]) + {page[i].id}
  {
    NewChildrenStep(before, page, i);
  }

  lemma PlanStays(drive: Drive, before: set<Id>, page: seq<DriveChild>, depth: int, i: nat)
    requires i < |page| && page[i].id in before + Ids(page[..i])
    ensures PlanPage(drive, before, page[..i + 1], depth) == PlanPage(drive, before, page[..i], depth)
    ensures before + Ids(page[..i]) + {page[i].id} == before + Ids(page[..i])
  {
    NewChildrenStep(before, page, i);
  }

  function PlanWith(drive: Drive, plan: Plan, child: DriveChild, depth: int): Plan {
    var disposition := Classify(child, drive.source, drive.target);
    Plan(plan.rows + [(child.id, Item(disposition.ItemState(), depth))],
         if disposition.ShouldRecurse() then plan.folders + [(child.id, Checkpoint(0, depth))] else plan.folders)
  }

  lemma PlanGrows(drive: Drive, before: set<Id>, page: seq<DriveChild>, depth: int, i: nat)
    requires i < |page| && page[i].id !in before + Ids(page[..i])
    ensures PlanPage(drive, before, page[..i + 1], depth) ==
            PlanWith(drive, PlanPage(drive, before, page[..i], depth), page[i], depth)
  {
    NewChildrenStep(before, page, i);
    RowsStep(drive, NewChildren(before, page[..i]), page[i], depth);
  }

  /** What is still to be committed of a page once `n` of its rows are in. */
  predicate AreLeft(plan: Plan, n: nat, items: seq<(Id, Item)>, folders: seq<(Id, Checkpoint)>) {
    && ChunkEnd(n, |plan.rows|) && |plan.folders| <= |plan.rows|
    && items == plan.rows[n..] && folders == plan.folders[Min(n, |plan.folders|)..]
  }

  /** The next batch of a page and what is left after it. */
  lemma BatchTaken(plan: Plan, n: nat)
    requires n < |plan.rows| && AreLeft(plan, n, plan.rows[n..], plan.folders[Min(n, |plan.folders|)..])
    ensures
      var take := Min(|plan.rows| - n, SCAN_CHECKPOINT_BATCH_SIZE);
      var m := Min(n, |plan.folders|);
      && take > 0 && ChunkEnd(n + take, |plan.rows|)
      && AreLeft(plan, n + take, plan.rows[n..][take..], plan.folders[m..][Min(|plan.folders| - m, take)..])
  {
  }

  lemma RootsLeaveRows(drive: Drive, seeded: seq<Id>, d: Durable)
    requires Resumable(drive, ToSet(seeded), d)
    ensures seeded == [] <==> d == EMPTY
  {
    if seeded == [] {
      assert ToSet(seeded) == {};
      NothingSeededIsEmpty(drive, d);
    } else {
      assert seeded[0] in ToSet(seeded);
    }
  }

  lemma CheckpointsArePending(drive: Drive, roots: set<Id>, d: Durable, work: seq<Work>)
    requires Recoverable(drive, roots, d)
    requires forall w :: w in work <==> w.folder in d.checkpoints && w == AsWork(w.folder, d.checkpoints[w.folder])
    ensures Pending(drive, roots, d, work)
  {
    forall f | f in d.checkpoints ensures Queued(work, f) {
      assert AsWork(f, d.checkpoints[f]) in work;
    }
  }

  lemma PageStepPending(drive: Drive, roots: set<Id>, d: Durable, wave: seq<Work>, queue: seq<Work>, i: nat)
    requires i < |wave| && OnPage(drive, roots, d, wave[i])
    requires Pending(drive, roots, d, wave + queue)
    ensures
      var w := wave[i];
      var plan := PlanPage(drive, d.items.Keys, PageOf(drive, w), w.depth + 1);
      Pending(drive, roots, PageEnd(d, plan, w.folder, w.depth, NextToken(drive, w)),
              QueueAfter(drive, plan, w, wave[..i] + wave[i + 1..], queue))
  {
    var w := wave[i];
    var plan := PlanPage(drive, d.items.Keys, PageOf(drive, w), w.depth + 1);
    PageReplaces(wave, queue, i, NextWork(w.folder, w.depth, NextToken(drive, w)), plan.folders);
    PageKeepsPending(drive, roots, d, w, wave + queue, QueueAfter(drive, plan, w, wave[..i] + wave[i + 1..], queue));
  }

  lemma PageStepMeasure(drive: Drive, visited: set<Id>, wave: seq<Work>, queue: seq<Work>, i: nat)
    requires drive.Valid() && i < |wave|
    requires wave[i].folder in drive.listing && wave[i].page < |drive.listing[wave[i].folder]|
    ensures
      var w := wave[i];
      var plan := PlanPage(drive, visited, PageOf(drive, w), w.depth + 1);
      Measure(drive, visited + Ids(PageOf(drive, w)), QueueAfter(drive, plan, w, wave[..i] + wave[i + 1..], queue))
      < Measure(drive, visited, wave + queue)
  {
    var w := wave[i];
    var plan := PlanPage(drive, visited, PageOf(drive, w), w.depth + 1);
    var tail := NextWork(w.folder, w.depth, NextToken(drive, w)) + FolderWork(plan.folders);
    TakeFromWave(wave, queue, i, tail);
    PageShrinksMeasure(
      drive, visited, wave + queue, i, w, plan, QueueAfter(drive, plan, w, wave[..i] + wave[i + 1..], queue));
  }

  lemma TakeFromWave(wave: seq<Work>, queue: seq<Work>, i: nat, tail: seq<Work>)
    requires i < |wave|
    ensures (wave + queue)[i] == wave[i]
    ensures (wave + queue)[..i] + (wave + queue)[i + 1..] + tail == wave[..i] + wave[i + 1..] + (queue + tail)
  {
  }

  /** A run can go on from here: the tables are resumable, and the wave and the queue hold all that is left. */
  ghost predicate Workable(drive: Drive, roots: set<Id>, s: RunState) {
    Resumable(drive, roots, s.tables) && Pending(drive, roots, s.tables, s.wave + s.queue)
  }

  ghost function Left(drive: Drive, s: RunState): nat {
    Measure(drive, s.tables.items.Keys, s.wave + s.queue)
  }

  lemma WaveIsWorkable(drive: Drive, roots: set<Id>, d: Durable, queue: seq<Work>, size: nat)
    requires size <= |queue| && Workable(drive, roots, RunState(d, [], queue))
    ensures
      var s := RunState(d, queue[..size], queue[size..]);
      Workable(drive, roots, s) && Left(drive, s) == Left(drive, RunState(d, [], queue))
  {
    assert queue[..size] + queue[size..] == queue == [] + queue;
  }

  /** Every point where a page can stop is resumable. */
  lemma StopIsResumable(drive: Drive, roots: set<Id>, d: Durable, w: Work, e: Durable)
    requires OnPage(drive, roots, d, w) && StoppedIn(drive, d, w, e)
    ensures Resumable(drive, roots, e)
  {
    if e == AfterPage(drive, d, w) {
      PageEndIsRecoverable(drive, roots, d, w);
    } else {
      var plan := PlanFor(drive, d, w);
      var n: nat :| ChunkEnd(n, |plan.rows|) && e == PageCut(d, plan, n);
      AnyPrefixIsRecoverable(drive, roots, d, w, n);
      InsertAllMeaning(d.items, plan.rows[..n]);
    }
  }

  /** One page of a wave: its end is resumable with the queue complete and the measure smaller. */
  lemma PageStep(drive: Drive, concurrency: nat, roots: set<Id>, s: RunState, i: nat)
    requires drive.Valid() && i < |s.wave| && OnDrive(drive, s.wave[i]) && Workable(drive, roots, s)
    ensures
      var e := After(drive, concurrency, s, Page(i));
      && Workable(drive, roots, e) && Left(drive, e) < Left(drive, s)
      && e.tables.items.Keys == s.tables.items.Keys + Ids(PageOf(drive, s.wave[i]))
  {
    assert s.wave[i] in s.wave + s.queue;
    PageEndIsRecoverable(drive, roots, s.tables, s.wave[i]);
    PageStepPending(drive, roots, s.tables, s.wave, s.queue, i);
    PageStepMeasure(drive, s.tables.items.Keys, s.wave, s.queue, i);
  }

  lemma PageReplaces(wave: seq<Work>, queue: seq<Work>, i: nat, next: seq<Work>, folders: seq<(Id, Checkpoint)>)
    requires i < |wave|
    ensures Replaces(wave + queue, wave[i], next, folders,
                     wave[..i] + wave[i + 1..] + (queue + (next + FolderWork(folders))))
  {
    FolderWorkHolds(folders);
    assert wave == wave[..i] + [wave[i]] + wave[i + 1..];
  }
}
