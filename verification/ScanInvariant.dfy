/** The invariant of the scan tables: kept by every prefix of the commits of a page, and exact on completion. */
module ScanInvariant {
  import opened Items
  import opened Classifier
  import opened ScanModel

  ghost predicate PagesDone(drive: Drive, committed: set<Id>, folder: Id, n: int) {
    forall k, i | folder in drive.listing && 0 <= k < n && k < |drive.listing[folder]|
      && 0 <= i < |drive.listing[folder][k]| :: drive.listing[folder][k][i].id in committed
  }

  ghost predicate Finished(drive: Drive, committed: set<Id>, folder: Id) {
    folder in drive.listing && PagesDone(drive, committed, folder, |drive.listing[folder]|)
  }

  ghost predicate SoundItem(drive: Drive, roots: set<Id>, id: Id, item: Item) {
    && ReachableAt(drive, roots, id, item.depth)
    && id in drive.files
    && StartsAs(AsMet(drive, roots, id), drive.source, drive.target, item.state)
  }

  /** Work that may be resumed: a reachable folder whose earlier pages are all committed. */
  ghost predicate SoundWork(drive: Drive, roots: set<Id>, committed: set<Id>, w: Work) {
    && ReachableAt(drive, roots, w.folder, w.depth)
    && Recurses(drive, roots, w.folder)
    && (if w.folder in drive.listing then w.page < |drive.listing[w.folder]| else w.page == 0)
    && PagesDone(drive, committed, w.folder, w.page)
  }

  function AsWork(folder: Id, c: Checkpoint): Work {
    Work(folder, c.page, c.depth)
  }

  /** What holds between any two commits, so also after a pause, an error or a crash. A checkpoint may exist
      for a folder whose own row is not committed yet; a committed folder without one has been read to its end. */
  ghost predicate Recoverable(drive: Drive, roots: set<Id>, d: Durable) {
    && (forall id :: id in d.items ==> SoundItem(drive, roots, id, d.items[id]))
    && (forall f :: f in d.checkpoints ==>
          SoundWork(drive, roots, d.items.Keys, AsWork(f, d.checkpoints[f])))
    && (forall f :: f in d.items && f !in d.checkpoints && Recurses(drive, roots, f) ==>
          Finished(drive, d.items.Keys, f))
  }

  /** Recoverable tables that hold their roots. */
  ghost predicate Resumable(drive: Drive, roots: set<Id>, d: Durable) {
    roots <= d.items.Keys && Recoverable(drive, roots, d)
  }

  /** The queue of a live run: every entry can be worked on, and no checkpoint is without an entry. */
  ghost predicate Pending(drive: Drive, roots: set<Id>, d: Durable, work: seq<Work>) {
    && (forall w :: w in work ==> SoundWork(drive, roots, d.items.Keys, w))
    && (forall f :: f in d.checkpoints ==> Queued(work, f))
  }

  ghost predicate Queued(work: seq<Work>, folder: Id) {
    exists w :: w in work && w.folder == folder
  }

  /** What a finished scan owes: the rows are exactly the reachable ids, each with the state and a depth the
      walk gives it. Each id has one row because the table is keyed by id. */
  ghost predicate Exact(drive: Drive, roots: set<Id>, d: Durable) {
    && (forall id :: id in d.items <==> Reachable(drive, roots, id))
    && (forall id :: id in d.items ==> SoundItem(drive, roots, id, d.items[id]))
  }

  lemma CompletedScanIsExact(drive: Drive, roots: set<Id>, d: Durable)
    requires Resumable(drive, roots, d) && d.checkpoints == map[]
    ensures Exact(drive, roots, d)
  {
    forall f, c | f in d.items && Recurses(drive, roots, f) && Lists(drive, f, c) ensures c in d.items {
      assert Finished(drive, d.items.Keys, f);
    }
    forall id | Reachable(drive, roots, id) ensures id in d.items {
      var depth :| ReachableAt(drive, roots, id, depth);
      var p :| Walk(drive, roots, p) && |p| == depth + 1 && p[|p| - 1] == id;
      ClosedSetHoldsWalk(drive, roots, d.items.Keys, p);
    }
  }

  /** Exactness fixes the set of rows and their states: two finished scans of one Drive agree. */
  lemma ExactIsUnique(drive: Drive, roots: set<Id>, d: Durable, e: Durable)
    requires Exact(drive, roots, d) && Exact(drive, roots, e)
    ensures d.items.Keys == e.items.Keys
    ensures forall id :: id in d.items ==> d.items[id].state == e.items[id].state
  {
  }

  // ---------------------------------------------------------------- the commits of one page

  datatype Plan = Plan(rows: seq<(Id, Item)>, folders: seq<(Id, Checkpoint)>)

  function PlanPage(drive: Drive, visited: set<Id>, page: seq<DriveChild>, depth: int): (plan: Plan)
    ensures |plan.folders| <= |plan.rows|
  {
    var found := NewChildren(visited, page);
    FolderRowsAreFew(drive, found, depth);
    Plan(ItemRows(drive, found, depth), FolderRows(drive, found, depth))
  }

  function Min(a: nat, b: nat): nat { if a < b then a else b }

  /** The tables once the first `n` rows of the page are in, with as many folder checkpoints as there are. */
  function PageCut(d: Durable, plan: Plan, n: nat): Durable
    requires n <= |plan.rows|
  {
    Durable(InsertAll(d.items, plan.rows[..n]),
            UpsertAll(d.checkpoints, plan.folders[..Min(n, |plan.folders|)]))
  }

  /** A batch of the next rows, with as many folder checkpoints as rows, moves the cut on by its length. */
  lemma CutGrows(d: Durable, plan: Plan, n: nat, take: nat)
    requires n + take <= |plan.rows|
    ensures
      var m := Min(n, |plan.folders|);
      var upsertTake := Min(|plan.folders| - m, take);
      ApplyBatch(PageCut(d, plan, n), Batch(plan.rows[n..][..take], plan.folders[m..][..upsertTake], []))
      == PageCut(d, plan, n + take)
  {
    var m := Min(n, |plan.folders|);
    var upsertTake := Min(|plan.folders| - m, take);
    InsertedOn(d.items, plan.rows, n, take);
    UpsertedOn(d.checkpoints, plan.folders, m, upsertTake);
    assert DeleteAll(UpsertAll(UpsertAll(d.checkpoints, plan.folders[..m]), plan.folders[m..][..upsertTake]), []) ==
           UpsertAll(d.checkpoints, plan.folders[..m + upsertTake]);
    assert m + upsertTake == Min(n + take, |plan.folders|);
  }

  lemma InsertedOn(items: map<Id, Item>, rows: seq<(Id, Item)>, n: nat, take: nat)
    requires n + take <= |rows|
    ensures InsertAll(InsertAll(items, rows[..n]), rows[n..][..take]) == InsertAll(items, rows[..n + take])
  {
    InsertAllAppend(items, rows[..n], rows[n..][..take]);
    assert rows[..n] + rows[n..][..take] == rows[..n + take];
  }

  lemma UpsertedOn(checkpoints: map<Id, Checkpoint>, rows: seq<(Id, Checkpoint)>, n: nat, take: nat)
    requires n + take <= |rows|
    ensures UpsertAll(UpsertAll(checkpoints, rows[..n]), rows[n..][..take]) == UpsertAll(checkpoints, rows[..n + take])
  {
    UpsertAllAppend(checkpoints, rows[..n], rows[n..][..take]);
    assert rows[..n] + rows[n..][..take] == rows[..n + take];
  }

  /** The tables after the whole page: the listed folder's checkpoint moves on, or goes with its last page. */
  function PageEnd(d: Durable, plan: Plan, folder: Id, depth: int, next: Option<nat>): Durable {
    Advance(PageCut(d, plan, |plan.rows|), folder, depth, next)
  }

  function Advance(d: Durable, folder: Id, depth: int, next: Option<nat>): Durable {
    match next
    case None => d.(checkpoints := d.checkpoints - {folder})
    case Some(page) => d.(checkpoints := d.checkpoints[folder := Checkpoint(page, depth)])
  }

  function NextWork(folder: Id, depth: int, next: Option<nat>): seq<Work> {
    match next
    case None => []
    case Some(page) => [Work(folder, page, depth)]
  }

  function NextToken(drive: Drive, w: Work): Option<nat>
    requires w.folder in drive.listing
  {
    if w.page + 1 < |drive.listing[w.folder]| then Some(w.page + 1) else None
  }

  ghost predicate OnPage(drive: Drive, roots: set<Id>, d: Durable, w: Work) {
    && drive.Valid()
    && Resumable(drive, roots, d)
    && SoundWork(drive, roots, d.items.Keys, w)
    && w.folder in drive.listing
  }

  function PageOf(drive: Drive, w: Work): seq<DriveChild>
    requires w.folder in drive.listing && w.page < |drive.listing[w.folder]|
  {
    drive.listing[w.folder][w.page]
  }

  lemma SoundWorkGrows(drive: Drive, roots: set<Id>, a: set<Id>, b: set<Id>, w: Work)
    requires SoundWork(drive, roots, a, w) && a <= b
    ensures SoundWork(drive, roots, b, w)
  {
  }

  /** Each row and each folder checkpoint planned for a page is sound on its own. */
  lemma PlanIsSound(drive: Drive, roots: set<Id>, d: Durable, w: Work)
    requires OnPage(drive, roots, d, w)
    ensures
      var plan := PlanPage(drive, d.items.Keys, PageOf(drive, w), w.depth + 1);
      && (forall r :: r in plan.rows ==> SoundItem(drive, roots, r.0, r.1))
      && (forall r :: r in plan.folders ==>
            SoundWork(drive, roots, d.items.Keys, AsWork(r.0, r.1)) && r.1.page == 0)
      && d.items.Keys + RowIds(plan.rows) == d.items.Keys + Ids(PageOf(drive, w))
  {
    var page := PageOf(drive, w);
    var found := NewChildren(d.items.Keys, page);
    NewChildrenMeaning(d.items.Keys, page);
    PlannedRowsSound(drive, roots, d, w, found);
    FolderRowsSound(drive, roots, d, w, found);
    ItemRowIds(drive, found, w.depth + 1);
  }

  lemma PlannedRowsSound(drive: Drive, roots: set<Id>, d: Durable, w: Work, found: seq<DriveChild>)
    requires OnPage(drive, roots, d, w)
    requires forall c :: c in found ==> c in PageOf(drive, w) && c.id !in d.items
    ensures forall r :: r in ItemRows(drive, found, w.depth + 1) ==> SoundItem(drive, roots, r.0, r.1)
  {
    var rows := ItemRows(drive, found, w.depth + 1);
    forall r | r in rows ensures SoundItem(drive, roots, r.0, r.1) {
      var i :| 0 <= i < |rows| && rows[i] == r;
      ListedChildReachable(drive, roots, d, w, found[i]);
    }
  }

  lemma ItemRowIds(drive: Drive, found: seq<DriveChild>, depth: int)
    ensures RowIds(ItemRows(drive, found, depth)) == Ids(found)
  {
    var rows := ItemRows(drive, found, depth);
    forall c | c in found ensures c.id in RowIds(rows) {
      var i :| 0 <= i < |found| && found[i] == c;
      assert rows[i].0 == c.id;
    }
  }

  lemma ListedChildReachable(drive: Drive, roots: set<Id>, d: Durable, w: Work, c: DriveChild)
    requires OnPage(drive, roots, d, w)
    requires c in PageOf(drive, w)
    ensures ReachableAt(drive, roots, c.id, w.depth + 1)
    ensures c.id in drive.files && drive.files[c.id] == c
  {
    var i :| 0 <= i < |PageOf(drive, w)| && PageOf(drive, w)[i] == c;
    assert drive.listing[w.folder][w.page][i].id == c.id;
    assert Lists(drive, w.folder, c.id);
    ReachableStep(drive, roots, w.folder, w.depth, c.id);
  }

  lemma {:induction false} FolderRowsSound(drive: Drive, roots: set<Id>, d: Durable, w: Work, found: seq<DriveChild>)
    requires OnPage(drive, roots, d, w)
    requires forall c :: c in found ==> c in PageOf(drive, w) && c.id !in d.items
    ensures forall r :: r in FolderRows(drive, found, w.depth + 1) ==>
              SoundWork(drive, roots, d.items.Keys, AsWork(r.0, r.1)) && r.1.page == 0
  {
    if found != [] {
      var c := found[|found| - 1];
      FolderRowsSound(drive, roots, d, w, found[..|found| - 1]);
      ListedChildReachable(drive, roots, d, w, c);
    }
  }

  /** Among the first `n` rows of a page, every folder the scan descends into has its checkpoint already. */
  lemma {:induction false} FoldersHaveCheckpoints(drive: Drive, roots: set<Id>, found: seq<DriveChild>, depth: int,
      n: nat)
    requires n <= |found|
    requires forall c :: c in found ==> c.id in drive.files && drive.files[c.id] == c && c.id !in roots
    ensures
      var folders := FolderRows(drive, found, depth);
      forall id :: id in RowIds(ItemRows(drive, found, depth)[..n]) && Recurses(drive, roots, id) ==>
        id in RowIds(folders[..Min(n, |folders|)])
  {
    var folders := FolderRows(drive, found, depth);
    var rows := ItemRows(drive, found, depth);
    FolderRowsRunAhead(drive, found, depth, n);
    var prefix := FolderRows(drive, found[..n], depth);
    forall id | id in RowIds(rows[..n]) && Recurses(drive, roots, id)
      ensures id in RowIds(folders[..Min(n, |folders|)])
    {
      var i :| 0 <= i < n && rows[i].0 == id;
      FolderRowsHold(drive, found[..n], depth, i);
      var r :| r in prefix && r.0 == id;
      var j :| 0 <= j < |prefix| && prefix[j] == r;
      assert folders[..Min(n, |folders|)][j] == r;
    }
  }

  lemma {:induction false} FolderRowsHold(drive: Drive, found: seq<DriveChild>, depth: int, i: nat)
    requires i < |found| && Descends(drive, found[i])
    ensures exists r :: r in FolderRows(drive, found, depth) && r.0 == found[i].id
  {
    if i == |found| - 1 {
      assert (found[i].id, Checkpoint(0, depth)) in FolderRows(drive, found, depth);
    } else {
      FolderRowsHold(drive, found[..|found| - 1], depth, i);
    }
  }

  /** Rows whose folders all bring their checkpoints along keep the tables recoverable. */
  lemma RowsKeepRecoverable(drive: Drive, roots: set<Id>, d: Durable, rows: seq<(Id, Item)>,
      folders: seq<(Id, Checkpoint)>)
    requires Recoverable(drive, roots, d)
    requires forall r :: r in rows ==> SoundItem(drive, roots, r.0, r.1)
    requires forall r :: r in folders ==> SoundWork(drive, roots, d.items.Keys, AsWork(r.0, r.1))
    requires forall id :: id in RowIds(rows) && Recurses(drive, roots, id) ==> id in RowIds(folders)
    ensures Recoverable(drive, roots, Durable(InsertAll(d.items, rows), UpsertAll(d.checkpoints, folders)))
  {
    var e := Durable(InsertAll(d.items, rows), UpsertAll(d.checkpoints, folders));
    InsertAllMeaning(d.items, rows);
    UpsertAllMeaning(d.checkpoints, folders);
    forall id | id in e.items ensures SoundItem(drive, roots, id, e.items[id]) {
      if id !in d.items { assert (id, e.items[id]) in rows; }
    }
    forall f | f in e.checkpoints
      ensures SoundWork(drive, roots, e.items.Keys, AsWork(f, e.checkpoints[f]))
    {
      if f in RowIds(folders) { assert (f, e.checkpoints[f]) in folders; }
      SoundWorkGrows(drive, roots, d.items.Keys, e.items.Keys, AsWork(f, e.checkpoints[f]));
    }
    forall f | f in e.items && f !in e.checkpoints && Recurses(drive, roots, f)
      ensures Finished(drive, e.items.Keys, f)
    {
      assert Finished(drive, d.items.Keys, f);
    }
  }

  /** The batching invariant: stop after any number of rows of a page and the tables can still be resumed. */
  lemma AnyPrefixIsRecoverable(drive: Drive, roots: set<Id>, d: Durable, w: Work, n: nat)
    requires OnPage(drive, roots, d, w)
    requires n <= |PlanPage(drive, d.items.Keys, PageOf(drive, w), w.depth + 1).rows|
    ensures Recoverable(drive, roots, PageCut(d, PlanPage(drive, d.items.Keys, PageOf(drive, w), w.depth + 1), n))
  {
    var plan := PlanPage(drive, d.items.Keys, PageOf(drive, w), w.depth + 1);
    PlanIsSound(drive, roots, d, w);
    PlanCoversFolders(drive, roots, d, w, n);
    RowsKeepRecoverable(drive, roots, d, plan.rows[..n], plan.folders[..Min(n, |plan.folders|)]);
  }

  lemma PlanCoversFolders(drive: Drive, roots: set<Id>, d: Durable, w: Work, n: nat)
    requires OnPage(drive, roots, d, w)
    requires n <= |PlanPage(drive, d.items.Keys, PageOf(drive, w), w.depth + 1).rows|
    ensures
      var plan := PlanPage(drive, d.items.Keys, PageOf(drive, w), w.depth + 1);
      forall id :: id in RowIds(plan.rows[..n]) && Recurses(drive, roots, id) ==>
        id in RowIds(plan.folders[..Min(n, |plan.folders|)])
  {
    var found := NewChildren(d.items.Keys, PageOf(drive, w));
    NewChildrenMeaning(d.items.Keys, PageOf(drive, w));
    forall c | c in found ensures c.id in drive.files && drive.files[c.id] == c {
      ListedChildReachable(drive, roots, d, w, c);
    }
    FoldersHaveCheckpoints(drive, roots, found, w.depth + 1, n);
  }

  /** With its page committed, a folder's checkpoint may move to the next page or, after the last, go. */
  lemma AdvanceKeepsRecoverable(drive: Drive, roots: set<Id>, d: Durable, w: Work)
    requires Recoverable(drive, roots, d)
    requires SoundWork(drive, roots, d.items.Keys, w) && w.folder in drive.listing
    requires forall c :: c in PageOf(drive, w) ==> c.id in d.items
    ensures
      var e := Advance(d, w.folder, w.depth, NextToken(drive, w));
      && Recoverable(drive, roots, e)
      && (forall x :: x in NextWork(w.folder, w.depth, NextToken(drive, w)) ==>
          SoundWork(drive, roots, e.items.Keys, x))
  {
    OnePageMore(drive, d.items.Keys, w);
    match NextToken(drive, w)
    case None => LeavingKeepsRecoverable(drive, roots, d, w.folder);
    case Some(page) => MovingKeepsRecoverable(drive, roots, d, Work(w.folder, page, w.depth));
  }

  lemma LeavingKeepsRecoverable(drive: Drive, roots: set<Id>, d: Durable, folder: Id)
    requires Recoverable(drive, roots, d) && Finished(drive, d.items.Keys, folder)
    ensures Recoverable(drive, roots, Advance(d, folder, 0, None))
  {
  }

  lemma MovingKeepsRecoverable(drive: Drive, roots: set<Id>, d: Durable, w: Work)
    requires Recoverable(drive, roots, d) && SoundWork(drive, roots, d.items.Keys, w)
    ensures Recoverable(drive, roots, Advance(d, w.folder, w.depth, Some(w.page)))
  {
    var e := Advance(d, w.folder, w.depth, Some(w.page));
    forall f | f in e.checkpoints ensures SoundWork(drive, roots, e.items.Keys, AsWork(f, e.checkpoints[f])) {
      if f == w.folder {
        assert AsWork(f, e.checkpoints[f]) == w;
      } else {
        assert e.checkpoints[f] == d.checkpoints[f];
      }
    }
  }

  lemma OnePageMore(drive: Drive, committed: set<Id>, w: Work)
    requires w.folder in drive.listing && w.page < |drive.listing[w.folder]|
    requires PagesDone(drive, committed, w.folder, w.page)
    requires forall c :: c in PageOf(drive, w) ==> c.id in committed
    ensures PagesDone(drive, committed, w.folder, w.page + 1)
  {
    forall k, i | 0 <= k < w.page + 1 && 0 <= i < |drive.listing[w.folder][k]|
      ensures drive.listing[w.folder][k][i].id in committed
    {
      if k == w.page { assert PageOf(drive, w)[i] in PageOf(drive, w); }
    }
  }

  /** The parent's checkpoint moves only with its whole page committed, so the page's end is recoverable too. */
  lemma PageEndIsRecoverable(drive: Drive, roots: set<Id>, d: Durable, w: Work)
    requires OnPage(drive, roots, d, w)
    ensures
      var plan := PlanPage(drive, d.items.Keys, PageOf(drive, w), w.depth + 1);
      var e := PageEnd(d, plan, w.folder, w.depth, NextToken(drive, w));
      && e.items.Keys == d.items.Keys + Ids(PageOf(drive, w))
      && Resumable(drive, roots, e)
      && (forall x :: x in NextWork(w.folder, w.depth, NextToken(drive, w)) ==>
          SoundWork(drive, roots, e.items.Keys, x))
  {
    var plan := PlanPage(drive, d.items.Keys, PageOf(drive, w), w.depth + 1);
    var cut := PageCut(d, plan, |plan.rows|);
    AnyPrefixIsRecoverable(drive, roots, d, w, |plan.rows|);
    PlanIsSound(drive, roots, d, w);
    assert plan.rows[..|plan.rows|] == plan.rows;
    InsertAllMeaning(d.items, plan.rows);
    SoundWorkGrows(drive, roots, d.items.Keys, cut.items.Keys, w);
    AdvanceKeepsRecoverable(drive, roots, cut, w);
  }

  /** `after` is `before` with the entry `w` replaced by its next page and the page's new folders. */
  ghost predicate Replaces(before: seq<Work>, w: Work, next: seq<Work>, folders: seq<(Id, Checkpoint)>,
                           after: seq<Work>)
  {
    && (forall x :: x in after ==> x in before || x in next || (x.folder, Checkpoint(x.page, x.depth)) in folders)
    && (forall x :: x in before && x != w ==> x in after)
    && (forall x :: x in next ==> x in after)
    && (forall r :: r in folders ==> AsWork(r.0, r.1) in after)
  }

  /** A page turns one queue entry into its next page and the new folders, and the queue stays complete. */
  lemma PageKeepsPending(drive: Drive, roots: set<Id>, d: Durable, w: Work, before: seq<Work>, after: seq<Work>)
    requires OnPage(drive, roots, d, w)
    requires Pending(drive, roots, d, before)
    requires
      var plan := PlanPage(drive, d.items.Keys, PageOf(drive, w), w.depth + 1);
      Replaces(before, w, NextWork(w.folder, w.depth, NextToken(drive, w)), plan.folders, after)
    ensures
      var plan := PlanPage(drive, d.items.Keys, PageOf(drive, w), w.depth + 1);
      Pending(drive, roots, PageEnd(d, plan, w.folder, w.depth, NextToken(drive, w)), after)
  {
    var plan := PlanPage(drive, d.items.Keys, PageOf(drive, w), w.depth + 1);
    var next := NextToken(drive, w);
    var e := PageEnd(d, plan, w.folder, w.depth, next);
    PlanIsSound(drive, roots, d, w);
    PageEndIsRecoverable(drive, roots, d, w);
    forall x | x in after ensures SoundWork(drive, roots, e.items.Keys, x) {
      if x !in NextWork(w.folder, w.depth, next) {
        QueuedWorkIsSound(drive, roots, d, w, before, plan, next, after, x);
        SoundWorkGrows(drive, roots, d.items.Keys, e.items.Keys, x);
      }
    }
    forall f | f in e.checkpoints ensures Queued(after, f) {
      CheckpointStaysQueued(d, plan, w, next, before, after, f);
    }
  }

  lemma QueuedWorkIsSound(drive: Drive, roots: set<Id>, d: Durable, w: Work, before: seq<Work>, plan: Plan,
                          next: Option<nat>, after: seq<Work>, x: Work)
    requires Pending(drive, roots, d, before)
    requires forall r :: r in plan.folders ==> SoundWork(drive, roots, d.items.Keys, AsWork(r.0, r.1))
    requires Replaces(before, w, NextWork(w.folder, w.depth, next), plan.folders, after)
    requires x in after && x !in NextWork(w.folder, w.depth, next)
    ensures SoundWork(drive, roots, d.items.Keys, x)
  {
    if x !in before {
      var r := (x.folder, Checkpoint(x.page, x.depth));
      assert r in plan.folders && AsWork(r.0, r.1) == x;
    }
  }

  lemma CheckpointStaysQueued(d: Durable, plan: Plan, w: Work, next: Option<nat>, before: seq<Work>, after: seq<Work>,
      f: Id)
    requires forall g :: g in d.checkpoints ==> Queued(before, g)
    requires Replaces(before, w, NextWork(w.folder, w.depth, next), plan.folders, after)
    requires f in PageEnd(d, plan, w.folder, w.depth, next).checkpoints
    ensures Queued(after, f)
  {
    var upserts := plan.folders[..Min(|plan.rows|, |plan.folders|)];
    UpsertAllMeaning(d.checkpoints, upserts);
    if f == w.folder {
      assert NextWork(w.folder, w.depth, next)[0] in after;
    } else if f in RowIds(upserts) {
      var r :| r in upserts && r.0 == f;
      assert AsWork(r.0, r.1) in after;
    } else {
      var x :| x in before && x.folder == f;
      assert x in after;
    }
  }
}
