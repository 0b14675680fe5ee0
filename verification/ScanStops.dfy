/** A stop between two commits of a page can turn the leaf-first order round, exactly when pages outgrow one batch. */
module ScanStops {
  import opened Items
  import opened Classifier
  import opened ScanModel
  import opened ScanInvariant
  import opened ScanSeed
  import opened ScanMeasure
  import opened ScanOrder
  import opened ScanHistories

  function PlainFolder(id: Id): DriveChild {
    DriveChild(id, FOLDER_MIME_TYPE, ["source"], None, false, None)
  }

  function PlainFiles(ids: seq<Id>): (files: seq<DriveChild>)
    ensures |files| == |ids| && forall i :: 0 <= i < |ids| ==> files[i] == PlainFile(ids[i])
  {
    if ids == [] then [] else PlainFiles(ids[..|ids| - 1]) + [PlainFile(ids[|ids| - 1])]
  }

  function RootPage(ids: seq<Id>): seq<DriveChild> {
    PlainFiles(ids) + [PlainFolder("outer")]
  }

  /** The root holds these files and a folder, which holds a second folder, which shows the first again. */
  function CrossedDrive(ids: seq<Id>): Drive {
    var folders := map["root" := PlainFolder("root"), "outer" := PlainFolder("outer"), "inner" := PlainFolder("inner")];
    var listing := map["root" := [RootPage(ids)], "outer" := [[PlainFolder("inner")]],
        "inner" := [[PlainFolder("outer")]]];
    Drive((map id | id in ids :: PlainFile(id)) + folders, listing, "source", "target")
  }

  lemma FolderDescends(drive: Drive, id: Id, depth: int)
    requires drive.source == "source" && drive.target == "target"
    ensures Classify(PlainFolder(id), drive.source, drive.target) == EligibleFolder
    ensures Descends(drive, PlainFolder(id)) && ItemRow(drive, PlainFolder(id), depth) == (id, Item(Eligible, depth))
  {
    assert FOLDER_MIME_TYPE[|FOLDER_MIME_TYPE| - 1] != SHORTCUT_MIME_TYPE[|SHORTCUT_MIME_TYPE| - 1];
    assert "source"[0] != "target"[0];
  }

  lemma FileDoesNot(drive: Drive, id: Id, depth: int)
    requires drive.source == "source" && drive.target == "target"
    ensures !Descends(drive, PlainFile(id)) && ItemRow(drive, PlainFile(id), depth) == (id, Item(Eligible, depth))
  {
    assert PlainFile(id).mimeType[0] != FOLDER_MIME_TYPE[0] == SHORTCUT_MIME_TYPE[0];
    assert "source"[0] != "target"[0];
  }

  lemma {:induction false} AllNew(visited: set<Id>, page: seq<DriveChild>)
    requires forall i, j :: 0 <= i < j < |page| ==> page[i].id != page[j].id
    requires forall c :: c in page ==> c.id !in visited
    ensures NewChildren(visited, page) == page
  {
    if page != [] {
      var before := page[..|page| - 1];
      AllNew(visited, before);
      assert page == before + [page[|page| - 1]];
      assert page[|page| - 1].id !in Ids(before);
    }
  }

  lemma {:induction false} NoneNew(visited: set<Id>, page: seq<DriveChild>)
    requires forall c :: c in page ==> c.id in visited
    ensures NewChildren(visited, page) == []
  {
    if page != [] { NoneNew(visited, page[..|page| - 1]); }
  }

  lemma {:induction false} FilesLeadNowhere(drive: Drive, ids: seq<Id>, depth: int)
    requires drive.source == "source" && drive.target == "target"
    ensures FolderRows(drive, PlainFiles(ids), depth) == []
  {
    if ids != [] {
      FilesLeadNowhere(drive, ids[..|ids| - 1], depth);
      FileDoesNot(drive, ids[|ids| - 1], depth);
      assert PlainFiles(ids)[..|ids| - 1] == PlainFiles(ids[..|ids| - 1]);
    }
  }

  lemma OneFolderPlan(drive: Drive, visited: set<Id>, id: Id, depth: int)
    requires drive.source == "source" && drive.target == "target" && id !in visited
    ensures PlanPage(drive, visited, [PlainFolder(id)], depth) ==
            Plan([(id, Item(Eligible, depth))], [(id, Checkpoint(0, depth))])
  {
    var page := [PlainFolder(id)];
    AllNew(visited, page);
    FolderDescends(drive, id, depth);
    assert page[..0] == [];
    assert ItemRows(drive, page, depth) == [(id, Item(Eligible, depth))];
    assert FolderRows(drive, page, depth) == [(id, Checkpoint(0, depth))];
  }

  lemma OneRow(items: map<Id, Item>, checkpoints: map<Id, Checkpoint>, id: Id, item: Item, c: Checkpoint)
    requires id !in items
    ensures InsertAll(items, [(id, item)]) == items[id := item]
    ensures UpsertAll(checkpoints, [(id, c)]) == checkpoints[id := c]
  {
    assert [(id, item)][..0] == [] && [(id, c)][..0] == [];
  }

  /** The last page of a folder with nothing new on it. */
  lemma NothingNewPage(drive: Drive, d: Durable, w: Work)
    requires CanApply(drive, d, w) && NextToken(drive, w).None?
    requires forall c :: c in PageOf(drive, w) ==> c.id in d.items
    ensures AfterPage(drive, d, w) == Durable(d.items, d.checkpoints - {w.folder})
    ensures PlanFor(drive, d, w) == Plan([], [])
  {
    NoneNew(d.items.Keys, PageOf(drive, w));
  }

  /** The only page of a folder with one new folder on it. */
  lemma OneFolderPage(drive: Drive, d: Durable, w: Work, id: Id)
    requires drive.source == "source" && drive.target == "target"
    requires CanApply(drive, d, w) && NextToken(drive, w).None?
    requires PageOf(drive, w) == [PlainFolder(id)] && id !in d.items
    ensures AfterPage(drive, d, w) ==
            Durable(d.items[id := Item(Eligible, w.depth + 1)],
                    d.checkpoints[id := Checkpoint(0, w.depth + 1)] - {w.folder})
  {
    OneFolderPlan(drive, d.items.Keys, id, w.depth + 1);
    AfterPageIs(drive, d, w, Plan([(id, Item(Eligible, w.depth + 1))], [(id, Checkpoint(0, w.depth + 1))]));
    OneRow(d.items, d.checkpoints, id, Item(Eligible, w.depth + 1), Checkpoint(0, w.depth + 1));
  }

  lemma RootPageIsNew(ids: seq<Id>)
    requires Distinct(ids) && "root" !in ids && "outer" !in ids
    ensures NewChildren({"root"}, RootPage(ids)) == RootPage(ids)
  {
    AllNew({"root"}, RootPage(ids));
  }

  lemma RootPageRows(drive: Drive, ids: seq<Id>)
    requires drive.source == "source" && drive.target == "target"
    ensures forall i :: 0 <= i < |ids| ==> ItemRows(drive, RootPage(ids), 1)[i] == (ids[i], Item(Eligible, 1))
  {
    forall i | 0 <= i < |ids| ensures ItemRows(drive, RootPage(ids), 1)[i] == (ids[i], Item(Eligible, 1)) {
      assert RootPage(ids)[i] == PlainFile(ids[i]);
      FileDoesNot(drive, ids[i], 1);
    }
  }

  lemma RootPageFolders(drive: Drive, ids: seq<Id>)
    requires drive.source == "source" && drive.target == "target"
    ensures FolderRows(drive, RootPage(ids), 1) == [("outer", Checkpoint(0, 1))]
  {
    FilesLeadNowhere(drive, ids, 1);
    RowsStep(drive, PlainFiles(ids), PlainFolder("outer"), 1);
    FolderDescends(drive, "outer", 1);
  }

  /** What the first commit of the root's page holds: the files, and already the checkpoint of the folder. */
  predicate IsRootPlan(plan: Plan, ids: seq<Id>) {
    && |plan.rows| == |ids| + 1
    && (forall i :: 0 <= i < |ids| ==> plan.rows[i] == (ids[i], Item(Eligible, 1)))
    && plan.folders == [("outer", Checkpoint(0, 1))]
  }

  lemma RootPlan(drive: Drive, ids: seq<Id>)
    requires drive.source == "source" && drive.target == "target"
    requires Distinct(ids) && "root" !in ids && "outer" !in ids
    ensures IsRootPlan(PlanPage(drive, {"root"}, RootPage(ids), 1), ids)
  {
    RootPageIsNew(ids);
    RootPageRows(drive, ids);
    RootPageFolders(drive, ids);
  }

  lemma FirstCommit(d: Durable, plan: Plan, ids: seq<Id>)
    requires d == Durable(map["root" := Item(Eligible, 0)], map["root" := Checkpoint(0, 0)])
    requires IsRootPlan(plan, ids) && |ids| > 0
    ensures
      var cut := PageCut(d, plan, |ids|);
      && cut.items.Keys == {"root"} + ToSet(ids)
      && WithRoot(cut.checkpoints, "outer", 1)
  {
    var rows := plan.rows[..|ids|];
    InsertAllMeaning(d.items, rows);
    assert plan.folders[..1] == plan.folders;
    OneRow(map[], d.checkpoints, "outer", Item(Eligible, 1), Checkpoint(0, 1));
    forall id | id in ids ensures id in RowIds(rows) {
      var i :| 0 <= i < |ids| && ids[i] == id;
      assert rows[i].0 == id;
    }
    assert RowIds(rows) == ToSet(ids);
  }

  lemma SeededRoot(ids: seq<Id>)
    requires "root" !in ids
    ensures Seeded(CrossedDrive(ids), ["root"]) ==
            Durable(map["root" := Item(Eligible, 0)], map["root" := Checkpoint(0, 0)])
  {
    assert ["root"][..0] == [];
    var drive := CrossedDrive(ids);
    FolderDescends(drive, "root", 0);
    assert drive.files["root"] == PlainFolder("root");
    assert DispositionOf(drive, {"root"}, "root").EligibleFolder?;
    assert SeedRows(drive, ["root"]) == [("root", Item(Eligible, 0))];
    assert SeedFolders(drive, ["root"]) == [("root", Checkpoint(0, 0))];
    OneRow(map[], map[], "root", Item(Eligible, 0), Checkpoint(0, 0));
  }

  predicate OnlyPage(drive: Drive, w: Work, page: seq<DriveChild>) {
    w.page == 0 && w.folder in drive.listing && drive.listing[w.folder] == [page]
  }

  /** The part of the crossed Drive a run sees. */
  predicate IsCrossed(drive: Drive, ids: seq<Id>) {
    && drive.source == "source" && drive.target == "target"
    && OnlyPage(drive, Work("root", 0, 0), RootPage(ids))
    && OnlyPage(drive, Work("outer", 0, 0), [PlainFolder("inner")])
    && OnlyPage(drive, Work("inner", 0, 0), [PlainFolder("outer")])
  }

  lemma CrossedDriveIsCrossed(ids: seq<Id>)
    ensures IsCrossed(CrossedDrive(ids), ids)
    ensures forall f :: Lists(CrossedDrive(ids), f, "inner") && "inner" !in ids ==> f == "outer"
  {
  }

  lemma CrossedDriveIsValid(ids: seq<Id>)
    requires "root" !in ids && "outer" !in ids && "inner" !in ids
    ensures CrossedDrive(ids).Valid() && PagesFit(CrossedDrive(ids), |ids| + 1)
  {
    var drive := CrossedDrive(ids);
    forall i | 0 <= i < |RootPage(ids)|
      ensures RootPage(ids)[i].id in drive.files && drive.files[RootPage(ids)[i].id] == RootPage(ids)[i]
    {
      if i < |ids| { assert RootPage(ids)[i] == PlainFile(ids[i]); }
    }
  }

  // ---------------------------------------------------------------- one run for each page

  /** A run that lists the checkpoints in this order, applies the page of the first and is stopped. */
  function ShortRun(order: seq<Work>): seq<Event> {
    [Resume(order)] + [TakeWave] + [Page(0)]
  }

  lemma EventApplies(drive: Drive, concurrency: nat, start: Durable, events: seq<Event>, e: Event)
    requires var s := StateAfter(drive, concurrency, start, events); s.Some? && CanHappen(drive, s.value, e)
    ensures
      var s := StateAfter(drive, concurrency, start, events);
      StateAfter(drive, concurrency, start, events + [e]) == Some(After(drive, concurrency, s.value, e))
  {
    assert (events + [e])[..|events|] == events;
  }

  lemma ShortRunApplies(
    drive: Drive, concurrency: nat, start: Durable, events: seq<Event>, d: Durable, order: seq<Work>)
    requires var s := StateAfter(drive, concurrency, start, events); s.Some? && s.value.tables == d
    requires IsListing(d, order) && order != [] && OnDrive(drive, order[0])
    ensures
      var s := StateAfter(drive, concurrency, start, events + ShortRun(order));
      && s.Some? && s.value.tables == AfterPage(drive, d, order[0])
      && (order == [order[0]] && NextToken(drive, order[0]).None? && PlanFor(drive, d, order[0]).folders == [] ==>
            s.value.wave == s.value.queue == [])
  {
    EventApplies(drive, concurrency, start, events, Resume(order));
    EventApplies(drive, concurrency, start, events + [Resume(order)], TakeWave);
    EventApplies(drive, concurrency, start, events + [Resume(order)] + [TakeWave], Page(0));
    assert events + [Resume(order)] + [TakeWave] + [Page(0)] == events + ShortRun(order);
  }

  /** Two checkpoints are left, the root's and this one. */
  predicate WithRoot(checkpoints: map<Id, Checkpoint>, folder: Id, depth: int) {
    folder != "root" && checkpoints == map["root" := Checkpoint(0, 0), folder := Checkpoint(0, depth)]
  }

  const ROOT := Work("root", 0, 0)

  lemma ListingsOfTwo(d: Durable, folder: Id, depth: int)
    requires WithRoot(d.checkpoints, folder, depth)
    ensures IsListing(d, [Work(folder, 0, depth), ROOT]) && IsListing(d, [ROOT, Work(folder, 0, depth)])
  {
  }

  lemma FolderReplaced(checkpoints: map<Id, Checkpoint>, folder: Id, depth: int, id: Id)
    requires WithRoot(checkpoints, folder, depth) && id != "root" && id != folder
    ensures WithRoot(checkpoints[id := Checkpoint(0, depth + 1)] - {folder}, id, depth + 1)
    ensures folder in checkpoints && checkpoints[folder] == Checkpoint(0, depth)
  {
  }

  lemma FolderPageTables(drive: Drive, d: Durable, w: Work, id: Id)
    requires drive.source == "source" && drive.target == "target" && OnlyPage(drive, w, [PlainFolder(id)])
    requires id != "root" && id != w.folder && id !in d.items && WithRoot(d.checkpoints, w.folder, w.depth)
    ensures AfterPage(drive, d, w).items == d.items[id := Item(Eligible, w.depth + 1)]
    ensures WithRoot(AfterPage(drive, d, w).checkpoints, id, w.depth + 1)
  {
    FolderReplaced(d.checkpoints, w.folder, w.depth, id);
    OneFolderPage(drive, d, w, id);
  }

  /** Such a run for a folder with one new folder in it. */
  lemma RunFindsFolder(
    drive: Drive, concurrency: nat, start: Durable, events: seq<Event>, d: Durable, w: Work, id: Id)
    requires drive.source == "source" && drive.target == "target" && OnlyPage(drive, w, [PlainFolder(id)])
    requires var s := StateAfter(drive, concurrency, start, events); s.Some? && s.value.tables == d
    requires id != "root" && id != w.folder && id !in d.items && WithRoot(d.checkpoints, w.folder, w.depth)
    ensures
      var s := StateAfter(drive, concurrency, start, events + ShortRun([w, ROOT]));
      && s.Some? && s.value.tables.items == d.items[id := Item(Eligible, w.depth + 1)]
      && WithRoot(s.value.tables.checkpoints, id, w.depth + 1)
  {
    ListingsOfTwo(d, w.folder, w.depth);
    FolderPageTables(drive, d, w, id);
    ShortRunApplies(drive, concurrency, start, events, d, [w, ROOT]);
  }

  lemma RootPageKnown(ids: seq<Id>, known: set<Id>)
    requires {"outer"} + ToSet(ids) <= known
    ensures forall c :: c in RootPage(ids) ==> c.id in known
  {
    forall c | c in RootPage(ids) ensures c.id in known {
      assert c.id == "outer" || c.id in ToSet(ids);
    }
  }

  lemma WithoutRoot(checkpoints: map<Id, Checkpoint>, folder: Id, depth: int)
    requires WithRoot(checkpoints, folder, depth)
    ensures checkpoints - {"root"} == map[folder := Checkpoint(0, depth)]
    ensures "root" in checkpoints && checkpoints["root"] == Checkpoint(0, 0)
  {
  }

  /** Such a run for the root, when all in it is known. */
  lemma RunReadsRoot(
    drive: Drive, concurrency: nat, start: Durable, events: seq<Event>, d: Durable, ids: seq<Id>, depth: int)
    requires OnlyPage(drive, ROOT, RootPage(ids)) && {"outer"} + ToSet(ids) <= d.items.Keys
    requires var s := StateAfter(drive, concurrency, start, events); s.Some? && s.value.tables == d
    requires WithRoot(d.checkpoints, "outer", depth)
    ensures
      var s := StateAfter(drive, concurrency, start, events + ShortRun([ROOT, Work("outer", 0, depth)]));
      s.Some? && s.value.tables == Durable(d.items, map["outer" := Checkpoint(0, depth)])
  {
    ListingsOfTwo(d, "outer", depth);
    RootPageKnown(ids, d.items.Keys);
    WithoutRoot(d.checkpoints, "outer", depth);
    NothingNewPage(drive, d, ROOT);
    ShortRunApplies(drive, concurrency, start, events, d, [ROOT, Work("outer", 0, depth)]);
  }

  /** The last run. */
  lemma RunReadsOuter(drive: Drive, concurrency: nat, start: Durable, events: seq<Event>, d: Durable, depth: int)
    requires OnlyPage(drive, Work("outer", 0, depth), [PlainFolder("inner")]) && "inner" in d.items
    requires var s := StateAfter(drive, concurrency, start, events); s.Some? && s.value.tables == d
    requires d.checkpoints == map["outer" := Checkpoint(0, depth)]
    ensures StateAfter(drive, concurrency, start, events + ShortRun([Work("outer", 0, depth)])) ==
            Some(RunState(Durable(d.items, map[]), [], []))
  {
    var w := Work("outer", 0, depth);
    NothingNewPage(drive, d, w);
    ShortRunApplies(drive, concurrency, start, events, d, [w]);
  }

  // ---------------------------------------------------------------- the history that turns the order

  /** The first run is stopped after the first commit of the root's page. */
  function FirstRun(rows: nat): seq<Event> {
    [Resume([ROOT])] + [TakeWave] + [StopInPage(0, rows)]
  }

  lemma FirstRunStops(drive: Drive, concurrency: nat, start: Durable, rows: nat)
    requires OnDrive(drive, ROOT) && start.checkpoints == map["root" := Checkpoint(0, 0)]
    requires ChunkEnd(rows, |PlanFor(drive, start, ROOT).rows|)
    ensures StateAfter(drive, concurrency, start, FirstRun(rows)) ==
            Some(RunState(PageCut(start, PlanFor(drive, start, ROOT), rows), [], []))
  {
    EventApplies(drive, concurrency, start, [], Resume([ROOT]));
    EventApplies(drive, concurrency, start, [] + [Resume([ROOT])], TakeWave);
    EventApplies(drive, concurrency, start, [] + [Resume([ROOT])] + [TakeWave], StopInPage(0, rows));
    assert [] + [Resume([ROOT])] + [TakeWave] + [StopInPage(0, rows)] == FirstRun(rows);
  }

  lemma FirstRunApplies(drive: Drive, concurrency: nat, start: Durable, ids: seq<Id>)
    requires IsCrossed(drive, ids) && |ids| == SCAN_CHECKPOINT_BATCH_SIZE && Distinct(ids)
    requires "root" !in ids && "outer" !in ids
    requires start == Durable(map["root" := Item(Eligible, 0)], map["root" := Checkpoint(0, 0)])
    ensures
      var s := StateAfter(drive, concurrency, start, FirstRun(|ids|));
      && s.Some? && s.value.tables.items.Keys == {"root"} + ToSet(ids)
      && WithRoot(s.value.tables.checkpoints, "outer", 1)
  {
    assert start.items.Keys == {"root"};
    RootPlan(drive, ids);
    FirstCommit(start, PlanFor(drive, start, ROOT), ids);
    FirstRunStops(drive, concurrency, start, |ids|);
  }

  /** Five runs: the root's page is cut short; the folder without a row is read, then the one in it, before the root is;
      then the root, with nothing new; then the folder again. */
  function TurningHistory(rows: nat): seq<Event> {
    FirstRun(rows)
    + ShortRun([Work("outer", 0, 1), ROOT])
    + ShortRun([Work("inner", 0, 2), ROOT])
    + ShortRun([ROOT, Work("outer", 0, 3)])
    + ShortRun([Work("outer", 0, 3)])
  }

  /** A folder deeper than the only thing in it. */
  predicate Turned(items: map<Id, Item>) {
    "outer" in items && "inner" in items && items["outer"].depth == 3 && items["inner"].depth == 2
  }

  lemma RunsAfterTheFirst(drive: Drive, concurrency: nat, start: Durable, ids: seq<Id>, first: seq<Event>, d: Durable)
    requires IsCrossed(drive, ids) && "outer" !in ids && "inner" !in ids
    requires var s := StateAfter(drive, concurrency, start, first); s.Some? && s.value.tables == d
    requires d.items.Keys == {"root"} + ToSet(ids) && WithRoot(d.checkpoints, "outer", 1)
    ensures
      var second := first + ShortRun([Work("outer", 0, 1), ROOT]);
      var third := second + ShortRun([Work("inner", 0, 2), ROOT]);
      var s := StateAfter(drive, concurrency, start, third);
      && s.Some? && Turned(s.value.tables.items) && {"outer", "inner"} + ToSet(ids) <= s.value.tables.items.Keys
      && WithRoot(s.value.tables.checkpoints, "outer", 3)
  {
    RunFindsFolder(drive, concurrency, start, first, d, Work("outer", 0, 1), "inner");
    var second := first + ShortRun([Work("outer", 0, 1), ROOT]);
    var e := StateAfter(drive, concurrency, start, second).value.tables;
    RunFindsFolder(drive, concurrency, start, second, e, Work("inner", 0, 2), "outer");
  }

  lemma LastRuns(drive: Drive, concurrency: nat, start: Durable, ids: seq<Id>, third: seq<Event>, d: Durable)
    requires IsCrossed(drive, ids)
    requires var s := StateAfter(drive, concurrency, start, third); s.Some? && s.value.tables == d
    requires {"outer", "inner"} + ToSet(ids) <= d.items.Keys && WithRoot(d.checkpoints, "outer", 3)
    ensures
      var fourth := third + ShortRun([ROOT, Work("outer", 0, 3)]);
      StateAfter(drive, concurrency, start, fourth + ShortRun([Work("outer", 0, 3)])) ==
      Some(RunState(Durable(d.items, map[]), [], []))
  {
    RunReadsRoot(drive, concurrency, start, third, d, ids, 3);
    var fourth := third + ShortRun([ROOT, Work("outer", 0, 3)]);
    RunReadsOuter(
      drive, concurrency, start, fourth, Durable(d.items, map["outer" := Checkpoint(0, 3)]), 3);
  }

  /** A hundred files and a folder under the root: the scan completes, and every list ordered deepest first names the
      folder before the only thing in it, which nothing else holds. */
  lemma StopInsidePageTurnsOrder(concurrency: nat, ids: seq<Id>, list: seq<Id>)
    requires |ids| == SCAN_CHECKPOINT_BATCH_SIZE && Distinct(ids)
    requires "root" !in ids && "outer" !in ids && "inner" !in ids
    ensures
      var drive := CrossedDrive(ids);
      var s := StateAfter(drive, concurrency, Seeded(drive, ["root"]), TurningHistory(|ids|));
      && s.Some? && IsDone(s.value)
      && (forall f :: Lists(drive, f, "inner") ==> f == "outer")
      && Turned(s.value.tables.items)
      && (DeepestFirst(list, s.value.tables.items) ==> Precedes(list, "outer", "inner"))
  {
    var drive := CrossedDrive(ids);
    CrossedDriveIsCrossed(ids);
    SeededRoot(ids);
    var start := Seeded(drive, ["root"]);
    FirstRunApplies(drive, concurrency, start, ids);
    var first := FirstRun(|ids|);
    var d := StateAfter(drive, concurrency, start, first).value.tables;
    RunsAfterTheFirst(drive, concurrency, start, ids, first, d);
    var third := first + ShortRun([Work("outer", 0, 1), ROOT]) + ShortRun([Work("inner", 0, 2), ROOT]);
    LastRuns(drive, concurrency, start, ids, third, StateAfter(drive, concurrency, start, third).value.tables);
  }

  lemma TurnedIsNotLeafFirst(drive: Drive, d: Durable)
    requires Turned(d.items) && forall f :: Lists(drive, f, "inner") ==> f == "outer"
    ensures !LeafFirst(drive, {"root"}, d)
  {
    forall finder ensures !LedTo(drive, {"root"}, d, finder) {
      if "inner" in finder && Lists(drive, finder["inner"], "inner") { assert finder["inner"] == "outer"; }
    }
  }

  // ---------------------------------------------------------------- the exact condition

  /** A completed history of any runs over a Drive whose pages have at most `n` entries. */
  ghost predicate Completes(drive: Drive, concurrency: nat, n: nat, ids: seq<Id>, events: seq<Event>) {
    && drive.Valid() && PagesFit(drive, n)
    && KnowsRoots(drive, ids)
    && var s := StateAfter(drive, concurrency, Seeded(drive, ids), events);
       s.Some? && IsDone(s.value)
  }

  /** However its runs are stopped, a completed scan has put every item one level below a folder that lists it. */
  ghost predicate OrderIsSafe(concurrency: nat, n: nat) {
    forall drive, ids, events :: Completes(drive, concurrency, n, ids, events) ==>
      LeafFirst(drive, ToSet(ids), StateAfter(drive, concurrency, Seeded(drive, ids), events).value.tables)
  }

  function Name(length: nat): (name: Id)
    ensures |name| == length
  {
    if length == 0 then "" else Name(length - 1) + "x"
  }

  function Names(count: nat): (names: seq<Id>)
    ensures |names| == count && forall i :: 0 <= i < count ==> |names[i]| == 10 + i
  {
    seq(count, i requires 0 <= i < count => Name(10 + i))
  }

  /** The order survives every stop exactly when a page of the listing fits one batch. */
  lemma OrderIsSafeIffPagesFitOneBatch(concurrency: nat, n: nat)
    ensures OrderIsSafe(concurrency, n) <==> n <= SCAN_CHECKPOINT_BATCH_SIZE
  {
    if n <= SCAN_CHECKPOINT_BATCH_SIZE {
      forall drive, ids, events | Completes(drive, concurrency, n, ids, events)
        ensures LeafFirst(drive, ToSet(ids), StateAfter(drive, concurrency, Seeded(drive, ids), events).value.tables)
      {
        HistoryKeepsOrder(drive, concurrency, ids, events);
      }
    } else {
      LargePagesAreUnsafe(concurrency, n);
    }
  }

  lemma LargePagesAreUnsafe(concurrency: nat, n: nat)
    requires n > SCAN_CHECKPOINT_BATCH_SIZE
    ensures !OrderIsSafe(concurrency, n)
  {
    var ids := Names(SCAN_CHECKPOINT_BATCH_SIZE);
    assert forall i :: 0 <= i < |ids| ==> |ids[i]| != |"root"| && |ids[i]| != |"outer"| && |ids[i]| != |"inner"|;
    var drive := CrossedDrive(ids);
    StopInsidePageTurnsOrder(concurrency, ids, []);
    CrossedDriveIsValid(ids);
    var events := TurningHistory(|ids|);
    assert Completes(drive, concurrency, n, ["root"], events);
    assert ToSet(["root"]) == {"root"};
    TurnedIsNotLeafFirst(drive, StateAfter(drive, concurrency, Seeded(drive, ["root"]), events).value.tables);
  }
}
