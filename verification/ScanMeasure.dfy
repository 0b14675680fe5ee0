/** Why a scan ends: pages left in queued work plus pages of files not met yet only go down. */
module ScanMeasure {
  import opened Items
  import opened Classifier
  import opened ScanModel
  import opened ScanInvariant

  function PagesFrom(drive: Drive, folder: Id, page: nat): nat {
    if folder in drive.listing && page < |drive.listing[folder]| then |drive.listing[folder]| - page else 0
  }

  function WorkLeft(drive: Drive, work: seq<Work>): nat {
    if work == [] then 0
    else
      var w := work[|work| - 1];
      WorkLeft(drive, work[..|work| - 1]) + PagesFrom(drive, w.folder, w.page)
  }

  ghost function Unmet(drive: Drive, ids: set<Id>): nat {
    if ids == {} then 0
    else
      var id :| id in ids;
      PagesFrom(drive, id, 0) + Unmet(drive, ids - {id})
  }

  ghost function Measure(drive: Drive, visited: set<Id>, work: seq<Work>): nat {
    WorkLeft(drive, work) + Unmet(drive, drive.files.Keys - visited)
  }

  lemma {:induction false} WorkLeftAppend(drive: Drive, a: seq<Work>, b: seq<Work>)
    ensures WorkLeft(drive, a + b) == WorkLeft(drive, a) + WorkLeft(drive, b)
  {
    if b == [] {
      assert a + b == a;
    } else {
      assert (a + b)[..|a + b| - 1] == a + b[..|b| - 1];
      WorkLeftAppend(drive, a, b[..|b| - 1]);
    }
  }

  lemma WorkLeftTake(drive: Drive, work: seq<Work>, i: nat)
    requires i < |work|
    ensures WorkLeft(drive, work) ==
            WorkLeft(drive, work[..i] + work[i + 1..]) + PagesFrom(drive, work[i].folder, work[i].page)
  {
    assert work == work[..i] + ([work[i]] + work[i + 1..]);
    WorkLeftAppend(drive, work[..i], [work[i]] + work[i + 1..]);
    WorkLeftAppend(drive, [work[i]], work[i + 1..]);
    WorkLeftAppend(drive, work[..i], work[i + 1..]);
    assert [work[i]][..0] == [];
  }

  lemma {:induction false} UnmetWithout(drive: Drive, ids: set<Id>, id: Id)
    requires id in ids
    ensures Unmet(drive, ids) == Unmet(drive, ids - {id}) + PagesFrom(drive, id, 0)
    decreases ids
  {
    var x :| x in ids && Unmet(drive, ids) == PagesFrom(drive, x, 0) + Unmet(drive, ids - {x});
    if x != id {
      UnmetWithout(drive, ids - {x}, id);
      UnmetWithout(drive, ids - {id}, x);
      assert ids - {x} - {id} == ids - {id} - {x};
    }
  }

  function FolderWork(folders: seq<(Id, Checkpoint)>): seq<Work> {
    if folders == [] then []
    else
      var f := folders[|folders| - 1];
      FolderWork(folders[..|folders| - 1]) + [AsWork(f.0, f.1)]
  }

  /** The queue once the page of `w` is applied; `rest` is what its wave still holds. */
  function QueueAfter(drive: Drive, plan: Plan, w: Work, rest: seq<Work>, queue: seq<Work>): seq<Work>
    requires w.folder in drive.listing
  {
    rest + (queue + (NextWork(w.folder, w.depth, NextToken(drive, w)) + FolderWork(plan.folders)))
  }

  lemma {:induction false} FolderWorkHolds(folders: seq<(Id, Checkpoint)>)
    ensures forall r :: r in folders ==> AsWork(r.0, r.1) in FolderWork(folders)
    ensures forall x :: x in FolderWork(folders) ==> (x.folder, Checkpoint(x.page, x.depth)) in folders
  {
    if folders != [] {
      FolderWorkHolds(folders[..|folders| - 1]);
      assert folders == folders[..|folders| - 1] + [folders[|folders| - 1]];
    }
  }

  /** Newly met children take their pages from the unmet files into the queue, or drop them. */
  lemma {:induction false} MeetingPaysForFolders(drive: Drive, visited: set<Id>, page: seq<DriveChild>, depth: int)
    requires Ids(page) <= drive.files.Keys
    ensures WorkLeft(drive, FolderWork(FolderRows(drive, NewChildren(visited, page), depth)))
              + Unmet(drive, drive.files.Keys - (visited + Ids(page)))
            <= Unmet(drive, drive.files.Keys - visited)
  {
    if page == [] {
      assert visited + Ids(page) == visited;
    } else {
      var before := page[..|page| - 1];
      var c := page[|page| - 1];
      assert page == before + [c];
      assert Ids(page) == Ids(before) + {c.id};
      MeetingPaysForFolders(drive, visited, before, depth);
      if c.id in visited + Ids(before) {
        assert visited + Ids(page) == visited + Ids(before);
      } else {
        var rest := drive.files.Keys - (visited + Ids(before));
        UnmetWithout(drive, rest, c.id);
        assert rest - {c.id} == drive.files.Keys - (visited + Ids(page));
        var found := NewChildren(visited, before);
        assert (found + [c])[..|found|] == found;
        FolderRowPays(drive, found, c, depth);
      }
    }
  }

  lemma FolderRowPays(drive: Drive, found: seq<DriveChild>, c: DriveChild, depth: int)
    ensures WorkLeft(drive, FolderWork(FolderRows(drive, found + [c], depth)))
            <= WorkLeft(drive, FolderWork(FolderRows(drive, found, depth))) + PagesFrom(drive, c.id, 0)
  {
    var rows := FolderRows(drive, found, depth);
    assert (found + [c])[..|found|] == found;
    if Descends(drive, c) {
      var row := (c.id, Checkpoint(0, depth));
      assert (rows + [row])[..|rows|] == rows;
      var work := FolderWork(rows);
      assert FolderRows(drive, found + [c], depth) == rows + [row];
      assert FolderWork(rows + [row]) == work + [AsWork(row.0, row.1)];
      WorkLeftAppend(drive, work, [AsWork(row.0, row.1)]);
    } else {
      assert FolderRows(drive, found + [c], depth) == rows;
    }
  }

  lemma NextTakesOnePage(drive: Drive, w: Work)
    requires w.folder in drive.listing && w.page < |drive.listing[w.folder]|
    ensures WorkLeft(drive, NextWork(w.folder, w.depth, NextToken(drive, w))) == PagesFrom(drive, w.folder, w.page) - 1
  {
    var next := NextWork(w.folder, w.depth, NextToken(drive, w));
    assert next != [] ==> next[..0] == [];
  }

  /** One applied page brings the measure down, whatever the page holds and wherever the entry stood. */
  lemma PageShrinksMeasure(
    drive: Drive, visited: set<Id>, before: seq<Work>, i: nat, w: Work, plan: Plan, after: seq<Work>)
    requires drive.Valid() && i < |before| && before[i] == w
    requires w.folder in drive.listing && w.page < |drive.listing[w.folder]|
    requires plan == PlanPage(drive, visited, PageOf(drive, w), w.depth + 1)
    requires
      after == before[..i] + before[i + 1..]
               + (NextWork(w.folder, w.depth, NextToken(drive, w)) + FolderWork(plan.folders))
    ensures Measure(drive, visited + Ids(PageOf(drive, w)), after) < Measure(drive, visited, before)
  {
    var page := PageOf(drive, w);
    var next := NextWork(w.folder, w.depth, NextToken(drive, w));
    WorkLeftTake(drive, before, i);
    WorkLeftAppend(drive, before[..i] + before[i + 1..], next + FolderWork(plan.folders));
    WorkLeftAppend(drive, next, FolderWork(plan.folders));
    NextTakesOnePage(drive, w);
    PageIsInDrive(drive, w);
    MeetingPaysForFolders(drive, visited, page, w.depth + 1);
  }

  lemma PageIsInDrive(drive: Drive, w: Work)
    requires drive.Valid() && w.folder in drive.listing && w.page < |drive.listing[w.folder]|
    ensures Ids(PageOf(drive, w)) <= drive.files.Keys
  {
    forall c | c in PageOf(drive, w) ensures c.id in drive.files {
      var k :| 0 <= k < |PageOf(drive, w)| && PageOf(drive, w)[k] == c;
      assert drive.listing[w.folder][w.page][k].id in drive.files;
    }
  }
}
