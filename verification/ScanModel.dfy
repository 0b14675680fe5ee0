/** What a resumable scan must produce, and the invariant its durable state keeps at every commit. */
module ScanModel {
  import opened Items
  import opened Classifier

  type Id = string

  /** The largest number of items one scan transaction may insert. */
  const SCAN_CHECKPOINT_BATCH_SIZE: nat := 100

  /** A Drive that stands still while it is scanned: every listing shows the same record of a file.
      Cycles, several parents and ids listed more than once are all allowed. */
  datatype Drive = Drive(
    files: map<Id, DriveChild>,
    listing: map<Id, seq<seq<DriveChild>>>,
    source: string,
    target: string
  ) {
    ghost predicate Valid() {
      && (forall f :: f in listing ==> |listing[f]| > 0)
      && (forall f, k, i :: f in listing && 0 <= k < |listing[f]| && 0 <= i < |listing[f][k]| ==>
            && listing[f][k][i].id in files
            && files[listing[f][k][i].id] == listing[f][k][i])
    }
  }

  datatype Item = Item(state: ItemState, depth: int)

  /** `page` is the index of the next page to list; 0 stands for a missing page token. */
  datatype Checkpoint = Checkpoint(page: nat, depth: int)

  datatype Work = Work(folder: Id, page: nat, depth: int)

  datatype Durable = Durable(items: map<Id, Item>, checkpoints: map<Id, Checkpoint>)

  datatype Batch = Batch(items: seq<(Id, Item)>, upserts: seq<(Id, Checkpoint)>, deletes: seq<Id>)

  const EMPTY := Durable(map[], map[])

  // ---------------------------------------------------------------- reachability

  /** A file as the scan meets it: roots are looked up one by one, and that lookup carries no shortcut target. */
  function AsMet(drive: Drive, roots: set<Id>, id: Id): DriveChild
    requires id in drive.files
  {
    if id in roots then drive.files[id].(shortcutTargetId := None) else drive.files[id]
  }

  function DispositionOf(drive: Drive, roots: set<Id>, id: Id): Disposition
    requires id in drive.files
  {
    Classify(AsMet(drive, roots, id), drive.source, drive.target)
  }

  predicate Recurses(drive: Drive, roots: set<Id>, id: Id) {
    id in drive.files && Entered(AsMet(drive, roots, id), drive.source, drive.target)
  }

  ghost predicate Lists(drive: Drive, folder: Id, child: Id) {
    folder in drive.listing &&
    exists k, i :: 0 <= k < |drive.listing[folder]| && 0 <= i < |drive.listing[folder][k]|
                   && drive.listing[folder][k][i].id == child
  }

  /** A walk from a root, entering only folders the scan descends into. */
  ghost predicate Walk(drive: Drive, roots: set<Id>, p: seq<Id>) {
    && |p| > 0
    && if |p| == 1 then p[0] in roots
       else
         && Walk(drive, roots, p[..|p| - 1])
         && Recurses(drive, roots, p[|p| - 2])
         && Lists(drive, p[|p| - 2], p[|p| - 1])
  }

  ghost predicate ReachableAt(drive: Drive, roots: set<Id>, id: Id, depth: int) {
    exists p :: Walk(drive, roots, p) && |p| == depth + 1 && p[|p| - 1] == id
  }

  ghost predicate Reachable(drive: Drive, roots: set<Id>, id: Id) {
    exists depth :: ReachableAt(drive, roots, id, depth)
  }

  lemma ReachableStep(drive: Drive, roots: set<Id>, folder: Id, depth: int, child: Id)
    requires ReachableAt(drive, roots, folder, depth)
    requires Recurses(drive, roots, folder) && Lists(drive, folder, child)
    ensures ReachableAt(drive, roots, child, depth + 1)
  {
    var p :| Walk(drive, roots, p) && |p| == depth + 1 && p[|p| - 1] == folder;
    LongerWalk(drive, roots, p, child);
    assert |p + [child]| == depth + 2;
  }

  lemma LongerWalk(drive: Drive, roots: set<Id>, p: seq<Id>, child: Id)
    requires Walk(drive, roots, p) && Recurses(drive, roots, p[|p| - 1]) && Lists(drive, p[|p| - 1], child)
    ensures Walk(drive, roots, p + [child]) && (p + [child])[|p|] == child
  {
    assert (p + [child])[..|p|] == p;
  }

  lemma RootReachable(drive: Drive, roots: set<Id>, root: Id)
    requires root in roots
    ensures ReachableAt(drive, roots, root, 0)
  {
    assert Walk(drive, roots, [root]);
  }

  /** Any set that holds the roots and everything its folders list holds every reachable id. */
  lemma {:induction false} ClosedSetHoldsWalk(drive: Drive, roots: set<Id>, closed: set<Id>, p: seq<Id>)
    requires Walk(drive, roots, p)
    requires roots <= closed
    requires forall f, c :: f in closed && Recurses(drive, roots, f) && Lists(drive, f, c) ==> c in closed
    ensures p[|p| - 1] in closed
  {
    if |p| > 1 {
      ClosedSetHoldsWalk(drive, roots, closed, p[..|p| - 1]);
    }
  }

  // ---------------------------------------------------------------- the scan tables

  /** INSERT ... ON CONFLICT DO NOTHING, row by row. */
  function InsertAll(items: map<Id, Item>, rows: seq<(Id, Item)>): map<Id, Item> {
    if rows == [] then items
    else
      var before := InsertAll(items, rows[..|rows| - 1]);
      var row := rows[|rows| - 1];
      if row.0 in before then before else before[row.0 := row.1]
  }

  /** INSERT ... ON CONFLICT DO UPDATE, row by row. */
  function UpsertAll(checkpoints: map<Id, Checkpoint>, rows: seq<(Id, Checkpoint)>): map<Id, Checkpoint> {
    if rows == [] then checkpoints
    else
      var row := rows[|rows| - 1];
      UpsertAll(checkpoints, rows[..|rows| - 1])[row.0 := row.1]
  }

  function DeleteAll(checkpoints: map<Id, Checkpoint>, ids: seq<Id>): map<Id, Checkpoint> {
    if ids == [] then checkpoints
    else DeleteAll(checkpoints, ids[..|ids| - 1]) - {ids[|ids| - 1]}
  }

  function ApplyBatch(d: Durable, b: Batch): Durable {
    Durable(InsertAll(d.items, b.items), DeleteAll(UpsertAll(d.checkpoints, b.upserts), b.deletes))
  }

  function RowIds<V(==)>(rows: seq<(Id, V)>): set<Id> {
    set r | r in rows :: r.0
  }

  lemma {:induction false} InsertAllMeaning(items: map<Id, Item>, rows: seq<(Id, Item)>)
    ensures
      var r := InsertAll(items, rows);
      && r.Keys == items.Keys + RowIds(rows)
      && (forall id :: id in items ==> r[id] == items[id])
      && (forall id :: id in r && id !in items ==> (id, r[id]) in rows)
  {
    if rows != [] {
      InsertAllMeaning(items, rows[..|rows| - 1]);
      assert rows == rows[..|rows| - 1] + [rows[|rows| - 1]];
    }
  }

  lemma {:induction false} UpsertAllMeaning(checkpoints: map<Id, Checkpoint>, rows: seq<(Id, Checkpoint)>)
    ensures
      var r := UpsertAll(checkpoints, rows);
      && r.Keys == checkpoints.Keys + RowIds(rows)
      && (forall id :: id in checkpoints && id !in RowIds(rows) ==> r[id] == checkpoints[id])
      && (forall id :: id in RowIds(rows) ==> (id, r[id]) in rows)
  {
    if rows != [] {
      UpsertAllMeaning(checkpoints, rows[..|rows| - 1]);
      assert rows == rows[..|rows| - 1] + [rows[|rows| - 1]];
    }
  }

  lemma {:induction false} InsertAllAppend(items: map<Id, Item>, a: seq<(Id, Item)>, b: seq<(Id, Item)>)
    ensures InsertAll(InsertAll(items, a), b) == InsertAll(items, a + b)
  {
    if b == [] {
      assert a + b == a;
    } else {
      InsertAllAppend(items, a, b[..|b| - 1]);
      assert (a + b)[..|a + b| - 1] == a + b[..|b| - 1];
    }
  }

  lemma {:induction false} UpsertAllAppend(checkpoints: map<Id, Checkpoint>, a: seq<(Id, Checkpoint)>,
                                           b: seq<(Id, Checkpoint)>)
    ensures UpsertAll(UpsertAll(checkpoints, a), b) == UpsertAll(checkpoints, a + b)
  {
    if b == [] {
      assert a + b == a;
    } else {
      UpsertAllAppend(checkpoints, a, b[..|b| - 1]);
      assert (a + b)[..|a + b| - 1] == a + b[..|b| - 1];
    }
  }

  // ---------------------------------------------------------------- one listed page

  function Ids(children: seq<DriveChild>): set<Id> {
    set c | c in children :: c.id
  }

  /** The children met for the first time, in listing order, duplicates dropped. */
  function NewChildren(visited: set<Id>, page: seq<DriveChild>): seq<DriveChild> {
    if page == [] then []
    else
      var before := page[..|page| - 1];
      var c := page[|page| - 1];
      if c.id in visited + Ids(before) then NewChildren(visited, before) else NewChildren(visited, before) + [c]
  }

  function ItemRow(drive: Drive, c: DriveChild, depth: int): (Id, Item) {
    (c.id, Item(Classify(c, drive.source, drive.target).ItemState(), depth))
  }

  predicate Descends(drive: Drive, c: DriveChild) {
    Classify(c, drive.source, drive.target).ShouldRecurse()
  }

  function ItemRows(drive: Drive, found: seq<DriveChild>, depth: int): (rows: seq<(Id, Item)>)
    ensures |rows| == |found|
    ensures forall i :: 0 <= i < |found| ==> rows[i] == ItemRow(drive, found[i], depth)
  {
    if found == [] then []
    else ItemRows(drive, found[..|found| - 1], depth) + [ItemRow(drive, found[|found| - 1], depth)]
  }

  function FolderRows(drive: Drive, found: seq<DriveChild>, depth: int): seq<(Id, Checkpoint)> {
    if found == [] then []
    else
      var c := found[|found| - 1];
      FolderRows(drive, found[..|found| - 1], depth)
      + if Descends(drive, c) then [(c.id, Checkpoint(0, depth))] else []
  }

  lemma {:induction false} NewChildrenMeaning(visited: set<Id>, page: seq<DriveChild>)
    ensures
      var found := NewChildren(visited, page);
      && (forall c :: c in found ==> c in page && c.id !in visited)
      && (forall c :: c in page ==> c.id in visited || c.id in Ids(found))
      && (forall i, j :: 0 <= i < j < |found| ==> found[i].id != found[j].id)
  {
    if page != [] {
      NewChildrenMeaning(visited, page[..|page| - 1]);
      assert page == page[..|page| - 1] + [page[|page| - 1]];
    }
  }

  lemma NewChildrenStep(visited: set<Id>, page: seq<DriveChild>, i: nat)
    requires i < |page|
    ensures Ids(page[..i + 1]) == Ids(page[..i]) + {page[i].id}
    ensures NewChildren(visited, page[..i + 1]) ==
            if page[i].id in visited + Ids(page[..i]) then NewChildren(visited, page[..i])
            else NewChildren(visited, page[..i]) + [page[i]]
  {
    assert page[..i + 1][..i] == page[..i];
    assert page[..i + 1] == page[..i] + [page[i]];
  }

  lemma RowsStep(drive: Drive, found: seq<DriveChild>, c: DriveChild, depth: int)
    ensures ItemRows(drive, found + [c], depth) ==
            ItemRows(drive, found, depth) + [ItemRow(drive, c, depth)]
    ensures FolderRows(drive, found + [c], depth) ==
            FolderRows(drive, found, depth)
            + if Descends(drive, c) then [(c.id, Checkpoint(0, depth))] else []
  {
    assert (found + [c])[..|found|] == found;
  }

  lemma {:induction false} FolderRowsAreFew(drive: Drive, found: seq<DriveChild>, depth: int)
    ensures |FolderRows(drive, found, depth)| <= |found|
  {
    if found != [] { FolderRowsAreFew(drive, found[..|found| - 1], depth); }
  }

  /** Folder checkpoints run ahead of item rows: among the first `n` new children there are at most `n`
      folders, and their checkpoint rows are the first ones of the page's whole list. */
  lemma {:induction false} FolderRowsRunAhead(drive: Drive, found: seq<DriveChild>, depth: int, n: nat)
    requires n <= |found|
    ensures |FolderRows(drive, found[..n], depth)| <= n
    ensures FolderRows(drive, found[..n], depth) <= FolderRows(drive, found, depth)
    decreases |found| - n
  {
    FolderRowsAreFew(drive, found[..n], depth);
    if n == |found| {
      assert found[..n] == found;
    } else {
      FolderRowsRunAhead(drive, found, depth, n + 1);
      assert found[..n + 1][..n] == found[..n];
    }
  }
}
