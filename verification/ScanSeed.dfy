/** How the roots get into the tables, and when a crash while seeding loses some of them. */
module ScanSeed {
  import opened Items
  import opened Classifier
  import opened ScanModel
  import opened ScanInvariant

  function ToSet(ids: seq<Id>): set<Id> {
    set id | id in ids
  }

  predicate Distinct(ids: seq<Id>) {
    forall i, j :: 0 <= i < j < |ids| ==> ids[i] != ids[j]
  }

  /** The roots in the order given, later repetitions dropped. */
  function Dedup(ids: seq<Id>): (r: seq<Id>)
    ensures ToSet(r) == ToSet(ids) && Distinct(r)
  {
    if ids == [] then []
    else
      var before := Dedup(ids[..|ids| - 1]);
      var id := ids[|ids| - 1];
      assert ids == ids[..|ids| - 1] + [id];
      assert ToSet(before + [id]) == ToSet(before) + {id} == ToSet(ids);
      if id in before then before else before + [id]
  }

  function SeedRows(drive: Drive, ids: seq<Id>): seq<(Id, Item)>
    requires forall id :: id in ids ==> id in drive.files
  {
    if ids == [] then []
    else
      var id := ids[|ids| - 1];
      SeedRows(drive, ids[..|ids| - 1]) + [(id, Item(DispositionOf(drive, {id}, id).ItemState(), 0))]
  }

  function SeedFolders(drive: Drive, ids: seq<Id>): seq<(Id, Checkpoint)> {
    if ids == [] then []
    else
      var id := ids[|ids| - 1];
      SeedFolders(drive, ids[..|ids| - 1]) + if Recurses(drive, {id}, id) then [(id, Checkpoint(0, 0))] else []
  }

  predicate KnowsRoots(drive: Drive, rootIds: seq<Id>) {
    forall id :: id in rootIds ==> id in drive.files
  }

  /** The tables once exactly these roots are in. */
  function Seeded(drive: Drive, ids: seq<Id>): Durable
    requires forall id :: id in ids ==> id in drive.files
  {
    Durable(InsertAll(map[], SeedRows(drive, ids)), UpsertAll(map[], SeedFolders(drive, ids)))
  }

  /** Where a crash can leave `persist_roots`: between two chunks, or at the end. */
  predicate ChunkEnd(n: nat, total: nat) {
    n == total || (n < total && n % SCAN_CHECKPOINT_BATCH_SIZE == 0)
  }

  lemma {:induction false} SeedRowsMeaning(drive: Drive, ids: seq<Id>)
    requires forall id :: id in ids ==> id in drive.files
    ensures |SeedRows(drive, ids)| == |ids|
    ensures forall i :: 0 <= i < |ids| ==>
              SeedRows(drive, ids)[i] == (ids[i], Item(DispositionOf(drive, {ids[i]}, ids[i]).ItemState(), 0))
    ensures RowIds(SeedRows(drive, ids)) == ToSet(ids)
  {
    if ids != [] {
      SeedRowsMeaning(drive, ids[..|ids| - 1]);
      assert ids == ids[..|ids| - 1] + [ids[|ids| - 1]];
    }
  }

  lemma {:induction false} SeedFoldersMeaning(drive: Drive, ids: seq<Id>)
    ensures forall r :: r in SeedFolders(drive, ids) ==>
              r.0 in ids && r.1 == Checkpoint(0, 0) && Recurses(drive, {r.0}, r.0)
    ensures forall id :: id in ids && Recurses(drive, {id}, id) ==> id in RowIds(SeedFolders(drive, ids))
  {
    if ids != [] {
      SeedFoldersMeaning(drive, ids[..|ids| - 1]);
      var id := ids[|ids| - 1];
      assert ids == ids[..|ids| - 1] + [id];
      assert Recurses(drive, {id}, id) ==> (id, Checkpoint(0, 0)) in SeedFolders(drive, ids);
    }
  }

  lemma {:induction false} SeedRowsAppend(drive: Drive, a: seq<Id>, b: seq<Id>)
    requires forall id :: id in a + b ==> id in drive.files
    ensures SeedRows(drive, a + b) == SeedRows(drive, a) + SeedRows(drive, b)
  {
    if b == [] {
      assert a + b == a;
    } else {
      assert (a + b)[..|a + b| - 1] == a + b[..|b| - 1];
      SeedRowsAppend(drive, a, b[..|b| - 1]);
    }
  }

  lemma {:induction false} SeedFoldersAppend(drive: Drive, a: seq<Id>, b: seq<Id>)
    ensures SeedFolders(drive, a + b) == SeedFolders(drive, a) + SeedFolders(drive, b)
  {
    if b == [] {
      assert a + b == a;
    } else {
      assert (a + b)[..|a + b| - 1] == a + b[..|b| - 1];
      SeedFoldersAppend(drive, a, b[..|b| - 1]);
    }
  }

  /** The checkpoints whose folder is among the rows of one chunk. */
  function UpsertsOf(chunk: seq<(Id, Item)>, upserts: seq<(Id, Checkpoint)>): seq<(Id, Checkpoint)> {
    if upserts == [] then []
    else
      var last := upserts[|upserts| - 1];
      UpsertsOf(chunk, upserts[..|upserts| - 1]) + if last.0 in RowIds(chunk) then [last] else []
  }

  lemma {:induction false} UpsertsOfAppend(chunk: seq<(Id, Item)>, a: seq<(Id, Checkpoint)>, b: seq<(Id, Checkpoint)>)
    ensures UpsertsOf(chunk, a + b) == UpsertsOf(chunk, a) + UpsertsOf(chunk, b)
  {
    if b == [] {
      assert a + b == a;
    } else {
      assert (a + b)[..|a + b| - 1] == a + b[..|b| - 1];
      UpsertsOfAppend(chunk, a, b[..|b| - 1]);
    }
  }

  lemma {:induction false} UpsertsOfSeed(drive: Drive, chunk: seq<(Id, Item)>, ids: seq<Id>)
    ensures ToSet(ids) <= RowIds(chunk) ==> UpsertsOf(chunk, SeedFolders(drive, ids)) == SeedFolders(drive, ids)
    ensures ToSet(ids) !! RowIds(chunk) ==> UpsertsOf(chunk, SeedFolders(drive, ids)) == []
  {
    if ids != [] {
      var before := ids[..|ids| - 1];
      var id := ids[|ids| - 1];
      UpsertsOfSeed(drive, chunk, before);
      assert ids == before + [id];
      assert ToSet(ids) == ToSet(before) + {id};
      var last := if Recurses(drive, {id}, id) then [(id, Checkpoint(0, 0))] else [];
      assert SeedFolders(drive, ids) == SeedFolders(drive, before) + last;
      UpsertsOfAppend(chunk, SeedFolders(drive, before), last);
      assert UpsertsOf(chunk, last) == if id in RowIds(chunk) then last else [] by {
        assert last != [] ==> last[..0] == [];
      }
    }
  }

  lemma UpsertsOfMiddle(drive: Drive, chunk: seq<(Id, Item)>, a: seq<Id>, b: seq<Id>, c: seq<Id>)
    requires RowIds(chunk) == ToSet(b) && ToSet(a) !! ToSet(b) && ToSet(c) !! ToSet(b)
    ensures UpsertsOf(chunk, SeedFolders(drive, a + b + c)) == SeedFolders(drive, b)
  {
    SeedFoldersAppend(drive, a + b, c);
    SeedFoldersAppend(drive, a, b);
    UpsertsOfAppend(chunk, SeedFolders(drive, a) + SeedFolders(drive, b), SeedFolders(drive, c));
    UpsertsOfAppend(chunk, SeedFolders(drive, a), SeedFolders(drive, b));
    UpsertsOfSeed(drive, chunk, a);
    UpsertsOfSeed(drive, chunk, b);
    UpsertsOfSeed(drive, chunk, c);
  }

  lemma ChunkOfRows(drive: Drive, ids: seq<Id>, lo: nat, hi: nat)
    requires lo <= hi <= |ids| && forall id :: id in ids ==> id in drive.files
    ensures |SeedRows(drive, ids)| == |ids|
    ensures SeedRows(drive, ids)[lo..hi] == SeedRows(drive, ids[lo..hi])
    ensures RowIds(SeedRows(drive, ids[lo..hi])) == ToSet(ids[lo..hi])
  {
    SeedRowsMeaning(drive, ids);
    SeedRowsMeaning(drive, ids[lo..hi]);
    SliceOfRows(SeedRows(drive, ids), SeedRows(drive, ids[lo..hi]), lo, hi);
  }

  lemma Thirds(ids: seq<Id>, lo: nat, hi: nat)
    requires lo <= hi <= |ids|
    ensures ids == ids[..lo] + ids[lo..hi] + ids[hi..]
  {
  }

  /** A chunk of the root rows, with the checkpoints it selects, is the seeding of just those roots. */
  lemma ChunkIsSeed(drive: Drive, ids: seq<Id>, lo: nat, hi: nat)
    requires lo <= hi <= |ids| && Distinct(ids)
    requires forall id :: id in ids ==> id in drive.files
    ensures |SeedRows(drive, ids)| == |ids|
    ensures SeedRows(drive, ids)[lo..hi] == SeedRows(drive, ids[lo..hi])
    ensures UpsertsOf(SeedRows(drive, ids[lo..hi]), SeedFolders(drive, ids)) == SeedFolders(drive, ids[lo..hi])
  {
    ChunkOfRows(drive, ids, lo, hi);
    SlicesAreDisjoint(ids, lo, hi);
    Thirds(ids, lo, hi);
    UpsertsOfMiddle(drive, SeedRows(drive, ids[lo..hi]), ids[..lo], ids[lo..hi], ids[hi..]);
  }

  lemma SliceOfRows(rows: seq<(Id, Item)>, part: seq<(Id, Item)>, lo: nat, hi: nat)
    requires lo <= hi <= |rows| && |part| == hi - lo
    requires forall i :: 0 <= i < |part| ==> part[i] == rows[lo + i]
    ensures rows[lo..hi] == part
  {
  }

  lemma SlicesAreDisjoint(ids: seq<Id>, lo: nat, hi: nat)
    requires lo <= hi <= |ids| && Distinct(ids)
    ensures ToSet(ids[..lo]) !! ToSet(ids[lo..hi]) && ToSet(ids[hi..]) !! ToSet(ids[lo..hi])
  {
  }

  lemma SeedStep(drive: Drive, ids: seq<Id>, id: Id)
    requires forall x :: x in ids + [id] ==> x in drive.files
    ensures SeedRows(drive, ids + [id]) ==
              SeedRows(drive, ids) + [(id, Item(DispositionOf(drive, {id}, id).ItemState(), 0))]
    ensures SeedFolders(drive, ids + [id]) ==
            SeedFolders(drive, ids) + if Recurses(drive, {id}, id) then [(id, Checkpoint(0, 0))] else []
  {
    assert (ids + [id])[..|ids|] == ids;
  }

  datatype Roots = Roots(items: seq<(Id, Item)>, upserts: seq<(Id, Checkpoint)>)

  /** The rows and checkpoints of these roots. */
  predicate Collected(drive: Drive, ids: seq<Id>, recursive: bool, roots: Roots)
    requires forall id :: id in ids ==> id in drive.files
  {
    roots == Roots(SeedRows(drive, ids), if recursive then SeedFolders(drive, ids) else [])
  }

  lemma CollectStep(drive: Drive, ids: seq<Id>, recursive: bool, roots: Roots, id: Id)
    requires forall x :: x in ids + [id] ==> x in drive.files
    requires Collected(drive, ids, recursive, roots)
    ensures
      var disposition := Classify(drive.files[id].(shortcutTargetId := None), drive.source, drive.target);
      Collected(drive, ids + [id], recursive,
                Roots(roots.items + [(id, Item(disposition.ItemState(), 0))],
                      if recursive && disposition.ShouldRecurse() then roots.upserts + [(id, Checkpoint(0, 0))]
                      else roots.upserts))
  {
    SeedStep(drive, ids, id);
  }

  lemma DedupStep(ids: seq<Id>, i: nat)
    requires i < |ids|
    ensures Dedup(ids[..i + 1]) == if ids[i] in Dedup(ids[..i]) then Dedup(ids[..i]) else Dedup(ids[..i]) + [ids[i]]
  {
    assert ids[..i + 1][..i] == ids[..i];
  }

  lemma SeedMore(drive: Drive, ids: seq<Id>, lo: nat, hi: nat)
    requires lo <= hi <= |ids|
    requires forall id :: id in ids ==> id in drive.files
    ensures ApplyBatch(Seeded(drive, ids[..lo]),
              Batch(SeedRows(drive, ids[lo..hi]), SeedFolders(drive, ids[lo..hi]), []))
            == Seeded(drive, ids[..hi])
  {
    assert ids[..hi] == ids[..lo] + ids[lo..hi];
    SeedRowsAppend(drive, ids[..lo], ids[lo..hi]);
    SeedFoldersAppend(drive, ids[..lo], ids[lo..hi]);
    InsertAllAppend(map[], SeedRows(drive, ids[..lo]), SeedRows(drive, ids[lo..hi]));
    UpsertAllAppend(map[], SeedFolders(drive, ids[..lo]), SeedFolders(drive, ids[lo..hi]));
  }

  /** A set of roots committed as one unit leaves tables from which the scan of those roots can be resumed. */
  lemma SeedIsResumable(drive: Drive, ids: seq<Id>)
    requires drive.Valid() && forall id :: id in ids ==> id in drive.files
    ensures Resumable(drive, ToSet(ids), Seeded(drive, ids))
  {
    var roots := ToSet(ids);
    SeedRowsMeaning(drive, ids);
    SeedFoldersMeaning(drive, ids);
    InsertAllMeaning(map[], SeedRows(drive, ids));
    forall r | r in SeedRows(drive, ids) ensures SoundItem(drive, roots, r.0, r.1) {
      RootReachable(drive, roots, r.0);
    }
    forall r | r in SeedFolders(drive, ids) ensures SoundWork(drive, roots, {}, AsWork(r.0, r.1)) {
      RootReachable(drive, roots, r.0);
    }
    RowsKeepRecoverable(drive, roots, EMPTY, SeedRows(drive, ids), SeedFolders(drive, ids));
  }

  lemma {:induction false} NoRootsNoWalk(drive: Drive, p: seq<Id>)
    ensures !Walk(drive, {}, p)
  {
    if |p| > 1 { NoRootsNoWalk(drive, p[..|p| - 1]); }
  }

  lemma ReachingNeedsRoots(drive: Drive, roots: set<Id>, id: Id, depth: int)
    requires ReachableAt(drive, roots, id, depth)
    ensures roots != {}
  {
    var p :| Walk(drive, roots, p) && |p| == depth + 1 && p[|p| - 1] == id;
    NoRootsNoWalk(drive, p);
  }

  lemma NothingSeededIsEmpty(drive: Drive, d: Durable)
    requires Recoverable(drive, {}, d)
    ensures d == EMPTY
  {
    forall id ensures id !in d.items {
      if id in d.items { ReachingNeedsRoots(drive, {}, id, d.items[id].depth); }
    }
    forall f ensures f !in d.checkpoints {
      if f in d.checkpoints { ReachingNeedsRoots(drive, {}, f, d.checkpoints[f].depth); }
    }
  }

  // ---------------------------------------------------------------- seeding in chunks is safe only as one chunk

  function PlainFile(id: Id): DriveChild {
    DriveChild(id, "text/plain", ["source"], None, false, None)
  }

  /** A Drive holding just these ids, none of them a folder. */
  function FlatDrive(ids: seq<Id>): Drive {
    Drive(map id | id in ids :: PlainFile(id), map[], "source", "target")
  }

  lemma {:induction false} FlatSeedHasNoFolders(all: seq<Id>, ids: seq<Id>)
    ensures SeedFolders(FlatDrive(all), ids) == []
  {
    if ids != [] {
      FlatSeedHasNoFolders(all, ids[..|ids| - 1]);
      assert PlainFile(ids[|ids| - 1]).mimeType[0] != FOLDER_MIME_TYPE[0];
    }
  }

  lemma MissingRootIsInexact(drive: Drive, roots: set<Id>, d: Durable, lost: Id)
    requires lost in roots && lost !in d.items
    ensures !Exact(drive, roots, d)
  {
    RootReachable(drive, roots, lost);
  }

  lemma FlatSeedKeys(all: seq<Id>, ids: seq<Id>)
    requires forall id :: id in ids ==> id in all
    ensures Seeded(FlatDrive(all), ids).checkpoints == map[]
    ensures Seeded(FlatDrive(all), ids).items.Keys == ToSet(ids)
  {
    FlatSeedHasNoFolders(all, ids);
    SeedRowsMeaning(FlatDrive(all), ids);
    InsertAllMeaning(map[], SeedRows(FlatDrive(all), ids));
  }

  /** With more than one chunk of roots, a crash after the first chunk loses the rest: the tables are no longer
      empty, so no later run seeds again, and a completed scan misses the next root. */
  lemma ChunkedSeedLosesRoots(roots: seq<Id>)
    requires |Dedup(roots)| > SCAN_CHECKPOINT_BATCH_SIZE
    ensures
      var ids := Dedup(roots);
      var first := ids[..SCAN_CHECKPOINT_BATCH_SIZE];
      && Resumable(FlatDrive(ids), ToSet(first), Seeded(FlatDrive(ids), first))
      && Seeded(FlatDrive(ids), first).checkpoints == map[]
      && Seeded(FlatDrive(ids), first).items.Keys == ToSet(first) != {}
      && !Exact(FlatDrive(ids), ToSet(roots), Seeded(FlatDrive(ids), first))
  {
    var ids := Dedup(roots);
    var first := ids[..SCAN_CHECKPOINT_BATCH_SIZE];
    var lost := ids[SCAN_CHECKPOINT_BATCH_SIZE];
    SeedIsResumable(FlatDrive(ids), first);
    FlatSeedKeys(ids, first);
    assert first[0] in ToSet(first);
    assert lost in ToSet(ids) && lost !in first;
    MissingRootIsInexact(FlatDrive(ids), ToSet(roots), Seeded(FlatDrive(ids), first), lost);
  }

  /** A store that a scan has completed after seeding stopped at `n` of the roots. */
  ghost predicate StoppedSeeding(roots: seq<Id>, drive: Drive, n: nat, d: Durable) {
    && drive.Valid()
    && ToSet(roots) <= drive.files.Keys
    && 0 < n <= |Dedup(roots)|
    && ChunkEnd(n, |Dedup(roots)|)
    && Resumable(drive, ToSet(Dedup(roots)[..n]), d)
    && d.checkpoints == map[]
  }

  /** Every Drive, every point where a crash can leave the seeding, every later completion: no root is lost.
      Nothing committed means the next run seeds again, so that point is harmless. */
  ghost predicate SeedingIsSafe(roots: seq<Id>) {
    forall drive, n, d :: StoppedSeeding(roots, drive, n, d) ==> Exact(drive, ToSet(roots), d)
  }

  /** Seeding survives every crash exactly when the distinct roots fit one chunk. */
  lemma SeedingIsSafeIffOneChunk(roots: seq<Id>)
    ensures SeedingIsSafe(roots) <==> |Dedup(roots)| <= SCAN_CHECKPOINT_BATCH_SIZE
  {
    if |Dedup(roots)| <= SCAN_CHECKPOINT_BATCH_SIZE {
      forall drive, n, d | StoppedSeeding(roots, drive, n, d) ensures Exact(drive, ToSet(roots), d) {
        OneChunkLosesNothing(roots, drive, n, d);
      }
    } else {
      ChunkedSeedLosesRoots(roots);
      var ids := Dedup(roots);
      assert StoppedSeeding(roots, FlatDrive(ids), SCAN_CHECKPOINT_BATCH_SIZE,
                            Seeded(FlatDrive(ids), ids[..SCAN_CHECKPOINT_BATCH_SIZE]));
    }
  }

  lemma OneChunkHasOnePoint(n: nat, total: nat)
    requires 0 < n <= total <= SCAN_CHECKPOINT_BATCH_SIZE && ChunkEnd(n, total)
    ensures n == total
  {
  }

  lemma OneChunkLosesNothing(roots: seq<Id>, drive: Drive, n: nat, d: Durable)
    requires |Dedup(roots)| <= SCAN_CHECKPOINT_BATCH_SIZE && StoppedSeeding(roots, drive, n, d)
    ensures Exact(drive, ToSet(roots), d)
  {
    OneChunkHasOnePoint(n, |Dedup(roots)|);
    var ids := Dedup(roots);
    assert ids[..n] == ids && ToSet(ids) == ToSet(roots);
    CompletedScanIsExact(drive, ToSet(roots), d);
  }
}
