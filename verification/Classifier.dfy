/** Classification of one Drive child: what state its row starts in and whether the scan descends into it. */
module Classifier {
  import opened Items

  const FOLDER_MIME_TYPE := "application/vnd.google-apps.folder"
  const SHORTCUT_MIME_TYPE := "application/vnd.google-apps.shortcut"

  datatype DriveChild = DriveChild(
    id: string,
    mimeType: string,
    owners: seq<string>,
    driveId: Option<string>,
    trashed: bool,
    shortcutTargetId: Option<string>
  )

  datatype Disposition =
    | EligibleFolder
    | EligibleFile
    | Shortcut
    | AlreadyOwnedByTarget
    | NotOwnedBySource
    | SharedDrive
    | Trashed
  {
    function ItemState(): ItemState {
      match this
      case EligibleFolder => Eligible
      case EligibleFile => Eligible
      case Shortcut => SkippedShortcutTarget
      case AlreadyOwnedByTarget => SkippedAlreadyOwnedByTarget
      case NotOwnedBySource => SkippedNotOwnedBySource
      case SharedDrive => SkippedSharedDrive
      case Trashed => SkippedTrashed
    }

    predicate ShouldRecurse() {
      EligibleFolder?
    }
  }

  predicate InSharedDrive(child: DriveChild) {
    child.driveId.Some? && child.driveId.value != ""
  }

  predicate IsShortcut(child: DriveChild) {
    child.mimeType == SHORTCUT_MIME_TYPE || child.shortcutTargetId.Some?
  }

  /** Live and in somebody's own Drive. */
  predicate InOwnDrive(child: DriveChild) {
    !child.trashed && !InSharedDrive(child)
  }

  predicate Transferable(child: DriveChild, source: string, target: string) {
    InOwnDrive(child) && source in child.owners && target !in child.owners && !IsShortcut(child)
  }

  /** The state the row of a child starts in, told from the child alone: the first reason to skip it, in this order, or
      eligible. */
  predicate StartsAs(child: DriveChild, source: string, target: string, state: ItemState) {
    && (state.SkippedTrashed? <==> child.trashed)
    && (state.SkippedSharedDrive? <==> !child.trashed && InSharedDrive(child))
    && (state.SkippedAlreadyOwnedByTarget? <==> InOwnDrive(child) && target in child.owners)
    && (state.SkippedNotOwnedBySource? <==>
          InOwnDrive(child) && target !in child.owners && source !in child.owners)
    && (state.SkippedShortcutTarget? <==>
          InOwnDrive(child) && target !in child.owners && source in child.owners && IsShortcut(child))
    && (state.Eligible? <==> Transferable(child, source, target))
  }

  /** The scan descends exactly into the folders it offers for transfer. */
  predicate Entered(child: DriveChild, source: string, target: string) {
    Transferable(child, source, target) && child.mimeType == FOLDER_MIME_TYPE
  }

  function Classify(child: DriveChild, source: string, target: string): (r: Disposition)
    ensures StartsAs(child, source, target, r.ItemState())
    ensures r.ShouldRecurse() <==> Entered(child, source, target)
  {
    MimeTypesDiffer();
    if child.trashed then Trashed
    else if child.driveId.Some? && child.driveId.value != "" then SharedDrive
    else if target in child.owners then AlreadyOwnedByTarget
    else if source !in child.owners then NotOwnedBySource
    else if child.mimeType == SHORTCUT_MIME_TYPE || child.shortcutTargetId.Some? then Shortcut
    else if child.mimeType == FOLDER_MIME_TYPE then EligibleFolder
    else EligibleFile
  }

  lemma MimeTypesDiffer()
    ensures FOLDER_MIME_TYPE != SHORTCUT_MIME_TYPE
  {
    assert FOLDER_MIME_TYPE[|FOLDER_MIME_TYPE| - 1] != SHORTCUT_MIME_TYPE[|SHORTCUT_MIME_TYPE| - 1];
  }

  /** Whatever the order of the tests: an item is offered for transfer exactly when it is live, in the
      source's own Drive, owned by source and not by target, and no shortcut; every other item is skipped. */
  lemma EligibleExactlyWhenTransferable(child: DriveChild, source: string, target: string)
    ensures
      var state := Classify(child, source, target).ItemState();
      && (state.Eligible? <==>
            && !child.trashed
            && (child.driveId.None? || child.driveId.value == "")
            && source in child.owners && target !in child.owners
            && child.mimeType != SHORTCUT_MIME_TYPE && child.shortcutTargetId.None?)
      && (!state.Eligible? ==> state.IsSkipped())
      && (Classify(child, source, target).ShouldRecurse() <==>
            state.Eligible? && child.mimeType == FOLDER_MIME_TYPE)
  {
  }

  /** A child has one state to start in: eligible if and only if it is transferable, and one reason to be skipped
      otherwise. */
  lemma OneStateToStart(child: DriveChild, source: string, target: string, a: ItemState, b: ItemState)
    requires StartsAs(child, source, target, a) && StartsAs(child, source, target, b)
    ensures a == b && (a.Eligible? || a.IsSkipped())
  {
  }
}
