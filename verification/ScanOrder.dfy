/** The depths of scanned rows, and the order they give a transfer: every item before the folder that led to it. */
module ScanOrder {
  import opened Items
  import opened Classifier
  import opened ScanModel
  import opened ScanInvariant
  import opened ScanMeasure
  import opened ScanSeed

  /** A folder still to be read is committed, and its checkpoint has the depth of its row. */
  predicate DepthsAgree(d: Durable) {
    forall f :: f in d.checkpoints ==> f in d.items && d.items[f].depth == d.checkpoints[f].depth
  }

  predicate OnDrive(drive: Drive, w: Work) {
    w.folder in drive.listing && w.page < |drive.listing[w.folder]|
  }

  /** This work is the next page of its folder, as the tables store it. */
  predicate CanApply(drive: Drive, d: Durable, w: Work) {
    OnDrive(drive, w) && w.folder in d.checkpoints && AsWork(w.folder, d.checkpoints[w.folder]) == w
  }

  function PlanFor(drive: Drive, d: Durable, w: Work): Plan
    requires OnDrive(drive, w)
  {
    PlanPage(drive, d.items.Keys, PageOf(drive, w), w.depth + 1)
  }

  function AfterPage(drive: Drive, d: Durable, w: Work): Durable
    requires OnDrive(drive, w)
  {
    PageEnd(d, PlanFor(drive, d, w), w.folder, w.depth, NextToken(drive, w))
  }

  lemma {:induction false} FolderRowsAreNew(drive: Drive, found: seq<DriveChild>, depth: int)
    ensures forall r :: r in FolderRows(drive, found, depth) ==> r.1 == Checkpoint(0, depth) && r.0 in Ids(found)
  {
    if found != [] {
      var rest := found[..|found| - 1];
      FolderRowsAreNew(drive, rest, depth);
      assert found == rest + [found[|found| - 1]];
    }
  }

  /** Rows of one depth, with checkpoints for some of them, all new. */
  predicate FreshRows(plan: Plan, visited: set<Id>, depth: int, ids: set<Id>) {
    && |plan.folders| <= |plan.rows|
    && (forall r :: r in plan.rows ==> r.1.depth == depth && r.0 !in visited && r.0 in ids)
    && (forall r :: r in plan.folders ==> r.1 == Checkpoint(0, depth) && r.0 in RowIds(plan.rows))
  }

  lemma RowsOfPage(drive: Drive, visited: set<Id>, page: seq<DriveChild>, depth: int)
    ensures FreshRows(PlanPage(drive, visited, page, depth), visited, depth, Ids(page))
  {
    var found := NewChildren(visited, page);
    NewChildrenMeaning(visited, page);
    FolderRowsAreNew(drive, found, depth);
    ItemRowIds(drive, found, depth);
  }

  lemma FreshItems(d: Durable, plan: Plan, depth: int, ids: set<Id>)
    requires FreshRows(plan, d.items.Keys, depth, ids)
    ensures
      var cut := PageCut(d, plan, |plan.rows|);
      && cut.items.Keys == d.items.Keys + RowIds(plan.rows)
      && (forall id :: id in d.items ==> cut.items[id] == d.items[id])
      && (forall id :: id in cut.items && id !in d.items ==> cut.items[id].depth == depth && id in ids)
  {
    assert plan.rows[..|plan.rows|] == plan.rows;
    InsertAllMeaning(d.items, plan.rows);
  }

  lemma FreshRowsKeepDepths(d: Durable, plan: Plan, depth: int, ids: set<Id>)
    requires DepthsAgree(d) && FreshRows(plan, d.items.Keys, depth, ids)
    ensures DepthsAgree(PageCut(d, plan, |plan.rows|))
  {
    FreshItems(d, plan, depth, ids);
    assert plan.folders[..|plan.folders|] == plan.folders;
    UpsertAllMeaning(d.checkpoints, plan.folders);
  }

  /** The rows of a whole page. */
  lemma PageRows(drive: Drive, d: Durable, w: Work)
    requires CanApply(drive, d, w) && DepthsAgree(d)
    ensures
      var cut := PageCut(d, PlanFor(drive, d, w), |PlanFor(drive, d, w).rows|);
      && DepthsAgree(cut) && d.items.Keys <= cut.items.Keys
      && (forall id :: id in d.items ==> cut.items[id] == d.items[id])
      && (forall id :: id in cut.items && id !in d.items ==>
            cut.items[id].depth == w.depth + 1 && id in Ids(PageOf(drive, w)))
  {
    RowsOfPage(drive, d.items.Keys, PageOf(drive, w), w.depth + 1);
    FreshItems(d, PlanFor(drive, d, w), w.depth + 1, Ids(PageOf(drive, w)));
    FreshRowsKeepDepths(d, PlanFor(drive, d, w), w.depth + 1, Ids(PageOf(drive, w)));
  }

  lemma ListedThere(drive: Drive, w: Work)
    requires OnDrive(drive, w)
    ensures forall id :: id in Ids(PageOf(drive, w)) ==> Lists(drive, w.folder, id)
  {
    forall id | id in Ids(PageOf(drive, w)) ensures Lists(drive, w.folder, id) {
      var i :| 0 <= i < |PageOf(drive, w)| && PageOf(drive, w)[i].id == id;
      assert drive.listing[w.folder][w.page][i].id == id;
    }
  }

  /** Moving a folder's checkpoint on touches no row. */
  lemma AdvanceKeepsDepths(d: Durable, w: Work, next: Option<nat>)
    requires DepthsAgree(d) && w.folder in d.items && d.items[w.folder].depth == w.depth
    ensures DepthsAgree(Advance(d, w.folder, w.depth, next)) && Advance(d, w.folder, w.depth, next).items == d.items
  {
  }

  /** A page gives each new item one more than the depth of the folder it was listed in. */
  lemma PageKeepsDepths(drive: Drive, d: Durable, w: Work)
    requires CanApply(drive, d, w) && DepthsAgree(d)
    ensures
      var e := AfterPage(drive, d, w);
      && DepthsAgree(e) && d.items.Keys <= e.items.Keys
      && (forall id :: id in d.items ==> e.items[id] == d.items[id])
      && (forall id :: id in e.items && id !in d.items ==>
            e.items[id].depth == e.items[w.folder].depth + 1 && Lists(drive, w.folder, id))
  {
    var plan := PlanFor(drive, d, w);
    PageRows(drive, d, w);
    AdvanceKeepsDepths(PageCut(d, plan, |plan.rows|), w, NextToken(drive, w));
    ListedThere(drive, w);
  }

  /** Who led to whom: every row but a root's names a committed folder that lists it and is one level up. */
  ghost predicate LedTo(drive: Drive, roots: set<Id>, d: Durable, finder: map<Id, Id>) {
    && finder.Keys == d.items.Keys - roots
    && forall id :: id in finder ==>
         && finder[id] in d.items && Lists(drive, finder[id], id)
         && d.items[id].depth == d.items[finder[id]].depth + 1
  }

  /** Every row but a root's has been led to. */
  ghost predicate LeafFirst(drive: Drive, roots: set<Id>, d: Durable) {
    exists finder :: LedTo(drive, roots, d, finder)
  }

  lemma RowsLeadOn(drive: Drive, roots: set<Id>, d: Durable, folder: Id, e: Durable)
    requires roots <= d.items.Keys && LeafFirst(drive, roots, d) && folder in d.items
    requires d.items.Keys <= e.items.Keys && forall id :: id in d.items ==> e.items[id] == d.items[id]
    requires forall id :: id in e.items && id !in d.items ==>
               e.items[id].depth == e.items[folder].depth + 1 && Lists(drive, folder, id)
    ensures LeafFirst(drive, roots, e)
  {
    var finder :| LedTo(drive, roots, d, finder);
    LedOn(drive, roots, d, folder, e, finder);
  }

  lemma LedOn(drive: Drive, roots: set<Id>, d: Durable, folder: Id, e: Durable, finder: map<Id, Id>)
    requires roots <= d.items.Keys && LedTo(drive, roots, d, finder) && folder in d.items
    requires d.items.Keys <= e.items.Keys && forall id :: id in d.items ==> e.items[id] == d.items[id]
    requires forall id :: id in e.items && id !in d.items ==>
               e.items[id].depth == e.items[folder].depth + 1 && Lists(drive, folder, id)
    ensures LeafFirst(drive, roots, e)
  {
    var more := map id | id in e.items.Keys - roots :: if id in d.items then finder[id] else folder;
    forall id | id in more
      ensures more[id] in e.items && Lists(drive, more[id], id) && e.items[id].depth == e.items[more[id]].depth + 1
    {
      if id in d.items { assert id in finder && more[id] == finder[id]; }
    }
    assert LedTo(drive, roots, e, more);
  }

  lemma PageLeadsOn(drive: Drive, roots: set<Id>, d: Durable, w: Work)
    requires CanApply(drive, d, w) && DepthsAgree(d) && roots <= d.items.Keys && LeafFirst(drive, roots, d)
    ensures LeafFirst(drive, roots, AfterPage(drive, d, w)) && DepthsAgree(AfterPage(drive, d, w))
    ensures roots <= AfterPage(drive, d, w).items.Keys
  {
    PageKeepsDepths(drive, d, w);
    RowsLeadOn(drive, roots, d, w.folder, AfterPage(drive, d, w));
  }

  /** A stop with all rows of a page in, the folder's own checkpoint not yet moved on, is as good as its end. */
  lemma RowsAloneLeadOn(drive: Drive, roots: set<Id>, d: Durable, w: Work)
    requires CanApply(drive, d, w) && DepthsAgree(d) && roots <= d.items.Keys && LeafFirst(drive, roots, d)
    ensures
      var plan := PlanFor(drive, d, w);
      var cut := PageCut(d, plan, |plan.rows|);
      LeafFirst(drive, roots, cut) && DepthsAgree(cut) && roots <= cut.items.Keys
  {
    var plan := PlanFor(drive, d, w);
    PageRows(drive, d, w);
    ListedThere(drive, w);
    RowsLeadOn(drive, roots, d, w.folder, PageCut(d, plan, |plan.rows|));
  }

  /** The roots lead to themselves. */
  lemma SeedLeads(drive: Drive, ids: seq<Id>)
    requires forall id :: id in ids ==> id in drive.files
    ensures
      var d := Seeded(drive, ids);
      LeafFirst(drive, ToSet(ids), d) && DepthsAgree(d) && ToSet(ids) <= d.items.Keys
  {
    SeedRowsMeaning(drive, ids);
    SeedFoldersMeaning(drive, ids);
    InsertAllMeaning(map[], SeedRows(drive, ids));
    UpsertAllMeaning(map[], SeedFolders(drive, ids));
    assert LedTo(drive, ToSet(ids), Seeded(drive, ids), map[]);
  }

  /** These entries are the ones stored. */
  predicate Matches(checkpoints: map<Id, Checkpoint>, work: seq<Work>) {
    forall w :: w in work ==> w.folder in checkpoints && w == AsWork(w.folder, checkpoints[w.folder])
  }

  predicate Avoids(work: seq<Work>, folder: Id) {
    forall w :: w in work ==> w.folder != folder
  }

  /** The queue holds the checkpoints as they are stored, none of them twice. */
  predicate InStep(d: Durable, work: seq<Work>) {
    Matches(d.checkpoints, work) && OnceEach(work)
  }

  predicate OnceEach(work: seq<Work>) {
    forall w :: w in work ==> multiset(work)[w] == 1
  }

  lemma {:induction false} FolderWorkOnceEach(drive: Drive, found: seq<DriveChild>, depth: int)
    requires forall i, j :: 0 <= i < j < |found| ==> found[i].id != found[j].id
    ensures OnceEach(FolderWork(FolderRows(drive, found, depth)))
  {
    if found != [] {
      var rest, c := found[..|found| - 1], found[|found| - 1];
      FolderWorkOnceEach(drive, rest, depth);
      FolderRowsAreNew(drive, rest, depth);
      FolderWorkHolds(FolderRows(drive, rest, depth));
      if Descends(drive, c) {
        var rows := FolderRows(drive, rest, depth);
        assert FolderRows(drive, found, depth) == rows + [(c.id, Checkpoint(0, depth))];
        assert (rows + [(c.id, Checkpoint(0, depth))])[..|rows|] == rows;
        assert c.id !in Ids(rest);
      } else {
        assert FolderRows(drive, found, depth) == FolderRows(drive, rest, depth);
      }
    }
  }

  lemma MovedCheckpoints(d: Durable, folders: seq<(Id, Checkpoint)>, w: Work, depth: int, next: Option<nat>,
      rest: seq<Work>)
    requires w.folder in d.checkpoints && Matches(d.checkpoints, rest) && Avoids(rest, w.folder)
    requires forall r :: r in folders ==> r.1 == Checkpoint(0, depth) && r.0 !in d.checkpoints
    ensures
      var after := Advance(Durable(d.items, UpsertAll(d.checkpoints, folders)), w.folder, w.depth, next).checkpoints;
      && Matches(after, rest) && Matches(after, NextWork(w.folder, w.depth, next))
          && Matches(after, FolderWork(folders))
      && Avoids(FolderWork(folders), w.folder)
      && (forall x :: x in FolderWork(folders) ==> x.folder !in d.checkpoints)
  {
    UpsertAllMeaning(d.checkpoints, folders);
    FolderWorkHolds(folders);
    assert forall f :: f in RowIds(folders) ==> f !in d.checkpoints;
  }

  lemma PlannedFoldersAreNew(drive: Drive, d: Durable, w: Work)
    requires CanApply(drive, d, w) && DepthsAgree(d)
    ensures
      var plan := PlanFor(drive, d, w);
      forall r :: r in plan.folders ==> r.1 == Checkpoint(0, w.depth + 1) && r.0 !in d.checkpoints
  {
    var plan := PlanFor(drive, d, w);
    RowsOfPage(drive, d.items.Keys, PageOf(drive, w), w.depth + 1);
    forall r | r in plan.folders ensures r.0 !in d.checkpoints {
      assert r.0 in RowIds(plan.rows) && r.0 !in d.items;
    }
  }

  lemma AfterPageIs(drive: Drive, d: Durable, w: Work, plan: Plan)
    requires CanApply(drive, d, w) && plan == PlanFor(drive, d, w)
    ensures AfterPage(drive, d, w) ==
            Advance(Durable(InsertAll(d.items, plan.rows), UpsertAll(d.checkpoints, plan.folders)),
                    w.folder, w.depth, NextToken(drive, w))
  {
    assert plan.rows[..|plan.rows|] == plan.rows && plan.folders[..|plan.folders|] == plan.folders;
  }

  /** What a page does to the checkpoints. */
  lemma PageCheckpoints(drive: Drive, d: Durable, w: Work, plan: Plan, rest: seq<Work>)
    requires CanApply(drive, d, w) && DepthsAgree(d) && Matches(d.checkpoints, rest) && Avoids(rest, w.folder)
    requires plan == PlanFor(drive, d, w)
    ensures
      var after := AfterPage(drive, d, w).checkpoints;
      && Matches(after, rest) && Matches(after, FolderWork(plan.folders))
      && Matches(after, NextWork(w.folder, w.depth, NextToken(drive, w)))
      && Avoids(FolderWork(plan.folders), w.folder)
      && (forall x :: x in FolderWork(plan.folders) ==> x.folder !in d.checkpoints)
  {
    PlannedFoldersAreNew(drive, d, w);
    AfterPageIs(drive, d, w, plan);
    MovedCheckpoints(Durable(InsertAll(d.items, plan.rows), d.checkpoints), plan.folders, w, w.depth + 1,
                     NextToken(drive, w), rest);
  }

  /** Stored work, taken out once, is gone from the queue. */
  lemma TakenOnce(wave: seq<Work>, queue: seq<Work>, i: nat)
    requires i < |wave| && OnceEach(wave + queue)
    ensures
      var rest := wave[..i] + wave[i + 1..] + queue;
      OnceEach(rest) && wave[i] !in rest && forall x :: x in rest ==> x in wave + queue
  {
    var rest := wave[..i] + wave[i + 1..] + queue;
    assert wave == wave[..i] + [wave[i]] + wave[i + 1..];
    assert multiset(wave + queue) == multiset(rest) + multiset{wave[i]};
    assert wave[i] in wave + queue;
    forall x | x in rest ensures multiset(rest)[x] == 1 {
      assert x in wave + queue;
    }
  }

  lemma TakenInStep(d: Durable, wave: seq<Work>, queue: seq<Work>, i: nat)
    requires i < |wave| && InStep(d, wave + queue)
    ensures wave[i].folder in d.checkpoints && AsWork(wave[i].folder, d.checkpoints[wave[i].folder]) == wave[i]
    ensures InStep(d, wave[..i] + wave[i + 1..] + queue) && wave[i] !in wave[..i] + wave[i + 1..] + queue
  {
    assert wave[i] in wave + queue;
    TakenOnce(wave, queue, i);
  }

  lemma JoinedOnceEach(a: seq<Work>, b: seq<Work>)
    requires OnceEach(a) && OnceEach(b) && forall x :: x in a ==> x !in b
    ensures OnceEach(a + b)
  {
  }

  /** Untouched work, the next page and new folders do not overlap. */
  lemma QueueRejoined(
    before: map<Id, Checkpoint>, e: Durable, w: Work, rest: seq<Work>, next: Option<nat>, folders: seq<Work>)
    requires Matches(before, rest) && Avoids(rest, w.folder) && Avoids(folders, w.folder)
    requires forall x :: x in folders ==> x.folder !in before
    requires OnceEach(rest) && OnceEach(folders)
    requires Matches(e.checkpoints, rest) && Matches(e.checkpoints, folders)
    requires Matches(e.checkpoints, NextWork(w.folder, w.depth, next))
    ensures InStep(e, rest + NextWork(w.folder, w.depth, next) + folders)
  {
    JoinedOnceEach(rest, NextWork(w.folder, w.depth, next));
    JoinedOnceEach(rest + NextWork(w.folder, w.depth, next), folders);
  }

  lemma QueueAfterIs(drive: Drive, plan: Plan, w: Work, rest: seq<Work>, queue: seq<Work>)
    requires w.folder in drive.listing
    ensures QueueAfter(drive, plan, w, rest, queue) ==
            rest + queue + NextWork(w.folder, w.depth, NextToken(drive, w)) + FolderWork(plan.folders)
  {
  }

  /** A page taken from the queue leaves its next page and new folders there, and the queue keeps in step. */
  lemma PageRejoins(drive: Drive, d: Durable, w: Work, wave: seq<Work>, queue: seq<Work>)
    requires CanApply(drive, d, w) && DepthsAgree(d)
    requires InStep(d, wave + queue) && w !in wave + queue
    ensures
      var plan := PlanFor(drive, d, w);
      InStep(AfterPage(drive, d, w), QueueAfter(drive, plan, w, wave, queue))
  {
    PageInStep(drive, d, w, PlanFor(drive, d, w), wave + queue);
    QueueAfterIs(drive, PlanFor(drive, d, w), w, wave, queue);
  }

  lemma PageInStep(drive: Drive, d: Durable, w: Work, plan: Plan, rest: seq<Work>)
    requires CanApply(drive, d, w) && DepthsAgree(d) && plan == PlanFor(drive, d, w)
    requires InStep(d, rest) && w !in rest
    ensures
      InStep(AfterPage(drive, d, w), rest + NextWork(w.folder, w.depth, NextToken(drive, w)) + FolderWork(plan.folders))
  {
    PageCheckpoints(drive, d, w, plan, rest);
    FoldersOnceEach(drive, d.items.Keys, PageOf(drive, w), w.depth + 1);
    QueueRejoined(d.checkpoints, AfterPage(drive, d, w), w, rest, NextToken(drive, w), FolderWork(plan.folders));
  }

  lemma FoldersOnceEach(drive: Drive, visited: set<Id>, page: seq<DriveChild>, depth: int)
    ensures OnceEach(FolderWork(PlanPage(drive, visited, page, depth).folders))
  {
    NewChildrenMeaning(visited, page);
    FolderWorkOnceEach(drive, NewChildren(visited, page), depth);
  }

  /** The order of the transfer list. */
  predicate DeepestFirst(list: seq<Id>, items: map<Id, Item>) {
    && (forall k :: 0 <= k < |list| ==> list[k] in items)
    && (forall j, k :: 0 <= j < k < |list| ==> items[list[j]].depth >= items[list[k]].depth)
  }

  predicate Precedes(list: seq<Id>, a: Id, b: Id) {
    forall j, k :: 0 <= j < |list| && 0 <= k < |list| && list[j] == a && list[k] == b ==> j < k
  }

  /** In every list ordered deepest first, an item comes before the folder that led to it. */
  lemma ItemsPrecedeTheirFolder(drive: Drive, roots: set<Id>, d: Durable, list: seq<Id>) returns (finder: map<Id, Id>)
    requires LeafFirst(drive, roots, d) && DeepestFirst(list, d.items)
    ensures LedTo(drive, roots, d, finder)
    ensures forall id :: id in finder ==> Precedes(list, id, finder[id])
  {
    finder :| LedTo(drive, roots, d, finder);
  }
}
