/** One file on Google Drive as ownership transfer sees it: what the calls do when they take effect. */
module DriveModel {
  import opened Items

  datatype Permission = Permission(id: string, role: string, email: Option<string>, pendingOwner: bool)

  datatype Snapshot = Snapshot(
    parents: seq<string>,
    owners: seq<string>,
    trashed: bool,
    driveId: Option<string>,
    permissions: seq<Permission>
  )

  datatype DriveError =
    | Unauthorized
    | Forbidden
    | NotFound
    | RateLimited
    | SharingRateLimitExceeded
    | StorageQuotaExceeded
    | ServerUnavailable
    | Transport
    | InvalidResponse
    | UnexpectedStatus

  datatype AccountRole = Source | Target

  datatype Op =
    | GetFile(role: AccountRole)
    | CreatePendingOwner
    | UpdatePendingOwner(permissionId: string)
    | AcceptOwnership(permissionId: string)

  datatype Answer = File(snapshot: Snapshot) | Granted(permission: Permission) | Accepted | Fault(error: DriveError)

  /** The two parties of a job. */
  datatype Parties = Parties(source: string, target: string, targetEmail: string)

  predicate AnswerFits(op: Op, a: Answer) {
    || a.Fault?
    || (op.GetFile? && a.File?)
    || ((op.CreatePendingOwner? || op.UpdatePendingOwner?) && a.Granted?)
    || (op.AcceptOwnership? && a.Accepted?)
  }

  function LowerAscii(c: char): char {
    if 'A' <= c <= 'Z' then (c as int + 32) as char else c
  }

  predicate EqIgnoreAsciiCase(a: string, b: string) {
    |a| == |b| && forall i :: 0 <= i < |a| ==> LowerAscii(a[i]) == LowerAscii(b[i])
  }

  /** The same character, or the same letter of the alphabet from A to Z in upper and in lower case. */
  predicate SameLetter(c: char, d: char) {
    || c == d
    || ('A' <= c <= 'Z' && d as int == c as int + 32)
    || ('A' <= d <= 'Z' && c as int == d as int + 32)
  }

  lemma CaseIsIgnored(a: string, b: string)
    ensures EqIgnoreAsciiCase(a, b) <==> |a| == |b| && forall i :: 0 <= i < |a| ==> SameLetter(a[i], b[i])
  {
  }

  predicate IsTarget(p: Permission, who: Parties) {
    p.id == who.target || (p.email.Some? && EqIgnoreAsciiCase(p.email.value, who.targetEmail))
  }

  /** The target's permission: the first entry with its id or its address. */
  function FindTargetPermission(permissions: seq<Permission>, who: Parties): Option<Permission> {
    if permissions == [] then None
    else if IsTarget(permissions[0], who) then Some(permissions[0])
    else FindTargetPermission(permissions[1..], who)
  }

  lemma {:induction false} FindTargetPermissionMeaning(permissions: seq<Permission>, who: Parties)
    ensures
      var found := FindTargetPermission(permissions, who);
      && (found.Some? ==> found.value in permissions && IsTarget(found.value, who))
      && (found.None? <==> forall p :: p in permissions ==> !IsTarget(p, who))
  {
    if permissions != [] {
      FindTargetPermissionMeaning(permissions[1..], who);
      assert permissions == [permissions[0]] + permissions[1..];
    }
  }

  /** The first permission of the list that is the target's stands at `i`. */
  predicate IsFirstTarget(permissions: seq<Permission>, who: Parties, i: int) {
    0 <= i < |permissions| && IsTarget(permissions[i], who) && forall j :: 0 <= j < i ==> !IsTarget(permissions[j], who)
  }

  lemma {:induction false} FirstTargetIsFound(permissions: seq<Permission>, who: Parties, i: int)
    requires IsFirstTarget(permissions, who, i)
    ensures FindTargetPermission(permissions, who) == Some(permissions[i])
    decreases |permissions|
  {
    if i > 0 {
      assert forall j :: 0 <= j < i - 1 ==> permissions[1..][j] == permissions[j + 1];
      FirstTargetIsFound(permissions[1..], who, i - 1);
    }
  }

  // ---------------------------------------------------------------- truthful state

  /** The target's permission is recognisable, and it is the owner's only once ownership has moved. */
  ghost predicate Sane(s: Snapshot, who: Parties, parents: seq<string>) {
    && who.source != who.target
    && !s.trashed && s.driveId.None?
    && multiset(s.parents) == multiset(parents)
    && (s.owners == [who.source] || s.owners == [who.target])
    && OneTarget(s.permissions, who)
    && (s.owners == [who.source] ==> NotYetOwner(s.permissions, who))
  }

  ghost predicate OneTarget(permissions: seq<Permission>, who: Parties) {
    forall i, j :: 0 <= i < j < |permissions| ==>
      && permissions[i].id != permissions[j].id
      && !(IsTarget(permissions[i], who) && IsTarget(permissions[j], who))
  }

  ghost predicate NotYetOwner(permissions: seq<Permission>, who: Parties) {
    forall p :: p in permissions && IsTarget(p, who) ==> !EqIgnoreAsciiCase(p.role, "owner")
  }

  predicate PendingAt(s: Snapshot, who: Parties, permissionId: string) {
    exists p :: p in s.permissions && p.id == permissionId && p.pendingOwner && IsTarget(p, who)
  }

  function SetPermission(permissions: seq<Permission>, id: string, role: string, pending: bool): (r: seq<Permission>)
    ensures |r| == |permissions|
    ensures forall i :: 0 <= i < |r| ==>
              r[i] == if permissions[i].id == id then permissions[i].(role := role, pendingOwner := pending)
                      else permissions[i]
  {
    if permissions == [] then []
    else
      [if permissions[0].id == id then permissions[0].(role := role, pendingOwner := pending) else permissions[0]]
      + SetPermission(permissions[1..], id, role, pending)
  }

  /** What a call does when Drive carries it out, with `newId` for a permission it creates; None when Drive refuses.
      Asking again for a pending owner that exists already asks for the same one. */
  function Effect(s: Snapshot, who: Parties, op: Op, newId: string): Option<(Snapshot, Answer)> {
    match op
    case GetFile(_) => Some((s, File(s)))
    case CreatePendingOwner =>
      if s.owners != [who.source] then None
      else (match FindTargetPermission(s.permissions, who)
            case None =>
              var p := Permission(newId, "writer", Some(who.targetEmail), true);
              Some((s.(permissions := s.permissions + [p]), Granted(p)))
            case Some(p) =>
              Some((s.(permissions := SetPermission(s.permissions, p.id, "writer", true)),
                    Granted(p.(role := "writer", pendingOwner := true)))))
    case UpdatePendingOwner(id) =>
      if s.owners != [who.source] then None
      else (match FindTargetPermission(s.permissions, who)
            case None => None
            case Some(p) =>
              if p.id != id then None
              else Some((s.(permissions := SetPermission(s.permissions, id, "writer", true)),
                         Granted(p.(role := "writer", pendingOwner := true)))))
    case AcceptOwnership(id) =>
      if s.owners != [who.source] || !PendingAt(s, who, id) then None
      else Some((s.(owners := [who.target], permissions := SetPermission(s.permissions, id, "owner", false)), Accepted))
  }

  predicate FreshId(s: Snapshot, who: Parties, newId: string) {
    forall p :: p in s.permissions ==> p.id != newId
  }

  lemma AppendKeepsSane(s: Snapshot, who: Parties, parents: seq<string>, newId: string)
    requires Sane(s, who, parents) && s.owners == [who.source] && FreshId(s, who, newId)
    requires forall p :: p in s.permissions ==> !IsTarget(p, who)
    ensures
      var p := Permission(newId, "writer", Some(who.targetEmail), true);
      var t := s.(permissions := s.permissions + [p]);
      Sane(t, who, parents) && PendingAt(t, who, newId)
  {
    var p := Permission(newId, "writer", Some(who.targetEmail), true);
    var t := s.(permissions := s.permissions + [p]);
    assert t.permissions[|s.permissions|] == p && IsTarget(p, who);
    forall i, j | 0 <= i < j < |t.permissions|
      ensures t.permissions[i].id != t.permissions[j].id
      ensures !(IsTarget(t.permissions[i], who) && IsTarget(t.permissions[j], who))
    {
      assert t.permissions[i] == s.permissions[i] && t.permissions[i] in s.permissions;
    }
    assert |"writer"| != |"owner"|;
  }

  lemma SetKeepsOneTarget(permissions: seq<Permission>, who: Parties, id: string, role: string, pending: bool)
    requires OneTarget(permissions, who)
    ensures OneTarget(SetPermission(permissions, id, role, pending), who)
  {
    var r := SetPermission(permissions, id, role, pending);
    assert forall j :: 0 <= j < |r| ==> r[j].id == permissions[j].id && r[j].email == permissions[j].email;
  }

  lemma SetKeepsSane(s: Snapshot, who: Parties, parents: seq<string>, p: Permission)
    requires Sane(s, who, parents) && s.owners == [who.source]
    requires p in s.permissions && IsTarget(p, who)
    ensures
      var t := s.(permissions := SetPermission(s.permissions, p.id, "writer", true));
      Sane(t, who, parents) && PendingAt(t, who, p.id)
  {
    var r := SetPermission(s.permissions, p.id, "writer", true);
    SetKeepsOneTarget(s.permissions, who, p.id, "writer", true);
    var i :| 0 <= i < |s.permissions| && s.permissions[i] == p;
    assert r[i] in r && r[i].pendingOwner && IsTarget(r[i], who);
    forall q | q in r && IsTarget(q, who) ensures !EqIgnoreAsciiCase(q.role, "owner") {
      var j :| 0 <= j < |r| && r[j] == q;
      assert s.permissions[j] in s.permissions;
      assert |"writer"| != |"owner"|;
    }
  }

  /** A pending-owner request that takes effect leaves the source owning and the granted permission pending. */
  lemma GrantKeepsSane(s: Snapshot, who: Parties, parents: seq<string>, op: Op, newId: string)
    requires Sane(s, who, parents) && s.owners == [who.source] && FreshId(s, who, newId)
    requires op.CreatePendingOwner? || op.UpdatePendingOwner?
    requires Effect(s, who, op, newId).Some?
    ensures
      var (t, a) := Effect(s, who, op, newId).value;
      Sane(t, who, parents) && t.owners == [who.source] && a.Granted? && PendingAt(t, who, a.permission.id)
  {
    FindTargetPermissionMeaning(s.permissions, who);
    match FindTargetPermission(s.permissions, who)
    case None => AppendKeepsSane(s, who, parents, newId);
    case Some(p) => SetKeepsSane(s, who, parents, p);
  }

  /** Acceptance that takes effect makes the target the one owner. */
  lemma AcceptKeepsSane(s: Snapshot, who: Parties, parents: seq<string>, id: string)
    requires Sane(s, who, parents) && s.owners == [who.source] && PendingAt(s, who, id)
    ensures
      var (t, a) := Effect(s, who, AcceptOwnership(id), "").value;
      Sane(t, who, parents) && t.owners == [who.target]
  {
    SetKeepsOneTarget(s.permissions, who, id, "owner", false);
  }

  /** A pending target permission is the one the transfer finds. */
  lemma PendingIsFound(s: Snapshot, who: Parties, parents: seq<string>, id: string)
    requires Sane(s, who, parents) && PendingAt(s, who, id)
    ensures FindTargetPermission(s.permissions, who).Some?
    ensures FindTargetPermission(s.permissions, who).value.id == id
    ensures FindTargetPermission(s.permissions, who).value.pendingOwner
  {
    FindTargetPermissionMeaning(s.permissions, who);
    var p :| p in s.permissions && p.id == id && p.pendingOwner && IsTarget(p, who);
    var i :| 0 <= i < |s.permissions| && s.permissions[i] == p;
    var q := FindTargetPermission(s.permissions, who).value;
    var j :| 0 <= j < |s.permissions| && s.permissions[j] == q;
  }
}
