/**
 * Moving a Graph message: optional read and flag patches, then an optional
 * move into a folder named by display name (case-insensitive) or id,
 * looked up among the top-level folders first and among their children
 * only when no top-level folder matches. Graph's answers are parameters.
 */
module OutlookMove {
  import opened Wrappers

  datatype Folder = Folder(id: string, displayName: string)

  /** The folder test of `resolveFolderId`; `lower` stands for `toLowerCase`. */
  predicate FolderMatches(f: Folder, name: string, lower: string -> string)
  {
    lower(f.displayName) == lower(name) || f.id == name
  }

  /** Index i holds a matching folder and no folder before it matches. */
  predicate FirstMatchAt(folders: seq<Folder>, i: int, name: string, lower: string -> string)
  {
    && 0 <= i < |folders| && FolderMatches(folders[i], name, lower)
    && forall k :: 0 <= k < i ==> !FolderMatches(folders[k], name, lower)
  }

  /** `folders.find(...)`: the first folder that matches. */
  function FindFolder(folders: seq<Folder>, name: string, lower: string -> string): (r: Option<Folder>)
    ensures r.Some? ==> r.value in folders && FolderMatches(r.value, name, lower)
    ensures r.Some? ==> exists i :: FirstMatchAt(folders, i, name, lower) && folders[i] == r.value
    ensures forall i :: FirstMatchAt(folders, i, name, lower) ==> r == Some(folders[i])
    ensures r.None? <==> forall f :: f in folders ==> !FolderMatches(f, name, lower)
  {
    if folders == [] then None
    else if FolderMatches(folders[0], name, lower) then Some(folders[0])
    else FindFolder(folders[1..], name, lower)
  }

  /** Graph's answer for one parent's child folders: the list, or None when the request threw or had no `value`. */
  function ChildFolders(parents: seq<Folder>, children: string -> Option<seq<Folder>>): seq<Folder>
  {
    if parents == [] then []
    else
      var own := if children(parents[0].id).Some? then children(parents[0].id).value else [];
      own + ChildFolders(parents[1..], children)
  }

  /** The collected children are exactly the folders some parent's successful request listed. */
  lemma {:induction false} ChildFoldersMembers(parents: seq<Folder>, children: string -> Option<seq<Folder>>)
    ensures forall f :: f in ChildFolders(parents, children) <==>
              exists p :: p in parents && children(p.id).Some? && f in children(p.id).value
  {
    if parents != [] {
      ChildFoldersMembers(parents[1..], children);
      assert forall p :: p in parents <==> p == parents[0] || p in parents[1..];
    }
  }

  /** Children are collected parent by parent, in the parents' order. */
  lemma {:induction false} ChildFoldersConcat(a: seq<Folder>, b: seq<Folder>, children: string -> Option<seq<Folder>>)
    ensures ChildFolders(a + b, children) == ChildFolders(a, children) + ChildFolders(b, children)
  {
    if a == [] {
      assert a + b == b;
    } else {
      assert (a + b)[0] == a[0] && (a + b)[1..] == a[1..] + b;
      ChildFoldersConcat(a[1..], b, children);
      var own := if children(a[0].id).Some? then children(a[0].id).value else [];
      Associative(own, ChildFolders(a[1..], children), ChildFolders(b, children));
    }
  }

  /** One parent contributes its listed children in the listing's order, or nothing when its request failed. */
  lemma ChildFoldersOne(p: Folder, children: string -> Option<seq<Folder>>)
    ensures ChildFolders([p], children) == if children(p.id).Some? then children(p.id).value else []
  {
    assert [p][1..] == [];
  }

  datatype MoveError = MissingOutlookId | CouldNotListFolders | FolderNotFound(name: string)

  /** The text each error carries. */
  function ErrorMessage(e: MoveError): string
  {
    match e
    case MissingOutlookId => "outlook_id is required for Outlook move"
    case CouldNotListFolders => "Could not list mail folders"
    case FolderNotFound(name) => "Folder \"" + name + "\" not found"
  }

  /**
   * The reference definition of `resolveFolderId`: `topLevel` is None when
   * the listing had no `value`.
   */
  function FolderId(topLevel: Option<seq<Folder>>, children: string -> Option<seq<Folder>>, name: string,
                    lower: string -> string)
    : Result<string, MoveError>
  {
    if topLevel.None? then Err(CouldNotListFolders)
    else match FindFolder(topLevel.value, name, lower)
      case Some(f) => Ok(f.id)
      case None =>
        match FindFolder(ChildFolders(topLevel.value, children), name, lower)
        case Some(f) => Ok(f.id)
        case None => Err(FolderNotFound(name))
  }

  /** The loop over the parents: requests each parent's children in order and ignores failed ones. */
  method CollectChildFolders(parents: seq<Folder>, children: string -> Option<seq<Folder>>)
    returns (childFolders: seq<Folder>, requested: seq<string>)
    ensures childFolders == ChildFolders(parents, children)
    ensures |requested| == |parents| && forall i :: 0 <= i < |parents| ==> requested[i] == parents[i].id
  {
    childFolders := [];
    requested := [];
    var i := 0;
    while i < |parents|
      invariant 0 <= i <= |parents|
      invariant childFolders + ChildFolders(parents[i..], children) == ChildFolders(parents, children)
      invariant |requested| == i && forall k :: 0 <= k < i ==> requested[k] == parents[k].id
    {
      assert parents[i..][1..] == parents[i + 1..];
      var response := children(parents[i].id);
      ghost var own := if response.Some? then response.value else [];
      assert ChildFolders(parents[i..], children) == own + ChildFolders(parents[i + 1..], children);
      requested := requested + [parents[i].id];
      if response.Some? {
        childFolders := childFolders + response.value;
      }
      i := i + 1;
    }
    assert parents[i..] == [];
  }

  /** `resolveFolderId`, with the parents whose children it listed. */
  method ResolveFolderId(topLevel: Option<seq<Folder>>, children: string -> Option<seq<Folder>>, name: string,
                    lower: string -> string)
    returns (result: Result<string, MoveError>, childRequests: seq<string>)
    ensures result == FolderId(topLevel, children, name, lower)
    ensures childRequests != [] ==> topLevel.Some? && FindFolder(topLevel.value, name, lower).None?
    ensures topLevel.Some? && FindFolder(topLevel.value, name, lower).None? ==>
              |childRequests| == |topLevel.value|
              && forall i :: 0 <= i < |childRequests| ==> childRequests[i] == topLevel.value[i].id
  {
    childRequests := [];
    if topLevel.None? {
      return Err(CouldNotListFolders), childRequests;
    }
    var folders := topLevel.value;
    var match_ := FindFolder(folders, name, lower);
    if match_.None? {
      var childFolders;
      childFolders, childRequests := CollectChildFolders(folders, children);
      var childMatch := FindFolder(childFolders, name, lower);
      if childMatch.Some? {
        return Ok(childMatch.value.id), childRequests;
      }
      return Err(FolderNotFound(name)), childRequests;
    }
    return Ok(match_.value.id), childRequests;
  }

  // ---------------------------------------------------------------------

  /** The outcome of the lookup: a top-level match always wins, and a child is chosen only without one. */
  lemma FolderIdChoice(topLevel: Option<seq<Folder>>, children: string -> Option<seq<Folder>>, name: string,
                        lower: string -> string)
    ensures var r := FolderId(topLevel, children, name, lower);
            && (r == Err(CouldNotListFolders) <==> topLevel.None?)
            && (topLevel.Some? && (exists f :: f in topLevel.value && FolderMatches(f, name, lower)) ==>
                  r.Ok? && exists f :: f in topLevel.value && FolderMatches(f, name, lower) && f.id == r.value)
            && (topLevel.Some? ==>
                  forall i :: FirstMatchAt(topLevel.value, i, name, lower) ==> r == Ok(topLevel.value[i].id))
            && (topLevel.Some? && (forall f :: f in topLevel.value ==> !FolderMatches(f, name, lower)) ==>
                  var childFolders := ChildFolders(topLevel.value, children);
                  forall i :: FirstMatchAt(childFolders, i, name, lower) ==> r == Ok(childFolders[i].id))
            && (r.Ok? ==> exists f :: FolderMatches(f, name, lower) && f.id == r.value
                                   && (f in topLevel.value
                                       || exists p :: p in topLevel.value && children(p.id).Some? && f in children(p.id).value))
            && (r == Err(FolderNotFound(name)) <==>
                  topLevel.Some? && (forall f :: f in topLevel.value ==> !FolderMatches(f, name, lower))
                  && forall p, f :: p in topLevel.value && children(p.id).Some? && f in children(p.id).value ==> !FolderMatches(f, name, lower))
  {
    if topLevel.Some? {
      ChildFoldersMembers(topLevel.value, children);
      var top := FindFolder(topLevel.value, name, lower);
      if top.None? {
        var childMatch := FindFolder(ChildFolders(topLevel.value, children), name, lower);
        if childMatch.Some? {
          var f := childMatch.value;
          assert f in ChildFolders(topLevel.value, children);
        }
      }
    }
  }

  /** The first match does not depend on how the name is cased, as long as no folder id equals either spelling. */
  lemma {:induction false} FindFolderIgnoresCase(folders: seq<Folder>, a: string, b: string, lower: string -> string)
    requires lower(a) == lower(b)
    requires forall f :: f in folders ==> f.id != a && f.id != b
    ensures FindFolder(folders, a, lower) == FindFolder(folders, b, lower)
  {
    if folders != [] {
      FindFolderIgnoresCase(folders[1..], a, b, lower);
    }
  }

  /** The folder a move resolves to depends on the name only through its lowered form (ids aside). */
  lemma FolderIdIgnoresCase(topLevel: Option<seq<Folder>>, children: string -> Option<seq<Folder>>,
                            a: string, b: string, lower: string -> string)
    requires lower(a) == lower(b)
    requires topLevel.Some? ==> forall f :: f in topLevel.value ==> f.id != a && f.id != b
    requires topLevel.Some? ==> forall f :: f in ChildFolders(topLevel.value, children) ==> f.id != a && f.id != b
    ensures FolderId(topLevel, children, a, lower).Ok? == FolderId(topLevel, children, b, lower).Ok?
    ensures FolderId(topLevel, children, a, lower).Ok? ==>
              FolderId(topLevel, children, a, lower).value == FolderId(topLevel, children, b, lower).value
  {
    if topLevel.Some? {
      FindFolderIgnoresCase(topLevel.value, a, b, lower);
      FindFolderIgnoresCase(ChildFolders(topLevel.value, children), a, b, lower);
    }
  }

  /** `mark_as_seen` / `flagged`: Some when strictly `true` or `false`, None for any other value. */
  type JsBool = Option<bool>

  /** The Graph requests `moveOutlookEmail` makes, in order. */
  datatype GraphCall =
    | PatchIsRead(messageId: string, isRead: bool)
    | PatchFlag(messageId: string, flagStatus: string)
    | ListMailFolders
    | ListChildFolders(parentId: string)
    | MoveTo(messageId: string, destinationId: string)

  datatype MoveResult = MoveResult(success: bool, destination: Option<string>, newId: Option<string>)

  datatype MoveRun = MoveRun(calls: seq<GraphCall>, result: Result<MoveResult, MoveError>)

  /** The patches made before any folder lookup. */
  function Patches(outlookId: string, markAsSeen: JsBool, flagged: JsBool): seq<GraphCall>
  {
    (if markAsSeen.Some? then [PatchIsRead(outlookId, markAsSeen.value)] else [])
    + (if flagged.Some? then [PatchFlag(outlookId, if flagged.value then "flagged" else "notFlagged")] else [])
  }

  /** The child-folder listings the lookup requests: one per top-level folder, only when none of them matches. */
  function ChildLookups(topLevel: Option<seq<Folder>>, name: string, lower: string -> string): (r: seq<GraphCall>)
    ensures forall c :: c in r ==> c.ListChildFolders?
    ensures r != [] ==> topLevel.Some? && FindFolder(topLevel.value, name, lower).None?
  {
    if topLevel.Some? && FindFolder(topLevel.value, name, lower).None? then
      var parents := topLevel.value;
      seq(|parents|, i requires 0 <= i < |parents| => ListChildFolders(parents[i].id))
    else []
  }

  /**
   * `moveOutlookEmail`: `folder` is "" when absent; `moveResponseId` is the
   * id in the move response ("" when it has none).
   */
  method MoveOutlookEmail(outlookId: string, folder: string, markAsSeen: JsBool, flagged: JsBool,
                          topLevel: Option<seq<Folder>>, children: string -> Option<seq<Folder>>,
                          lower: string -> string, moveResponseId: string)
    returns (run: MoveRun)
    ensures outlookId == "" ==> run == MoveRun([], Err(MissingOutlookId))
    ensures outlookId != "" && folder == "" ==>
              run == MoveRun(Patches(outlookId, markAsSeen, flagged), Ok(MoveResult(true, None, None)))
    ensures outlookId != "" && folder != "" ==>
              var dest := FolderId(topLevel, children, folder, lower);
              && run.calls == Patches(outlookId, markAsSeen, flagged) + [ListMailFolders] + ChildLookups(topLevel, folder, lower)
                              + (if dest.Ok? then [MoveTo(outlookId, dest.value)] else [])
              && run.result == (if dest.Err? then Err(dest.error)
                                else Ok(MoveResult(true, Some(folder), if moveResponseId != "" then Some(moveResponseId) else None)))
  {
    if outlookId == "" {
      return MoveRun([], Err(MissingOutlookId));
    }
    var calls: seq<GraphCall> := [];
    if markAsSeen.Some? {
      calls := calls + [PatchIsRead(outlookId, markAsSeen.value)];
    }
    if flagged.Some? {
      calls := calls + [PatchFlag(outlookId, if flagged.value then "flagged" else "notFlagged")];
    }
    assert calls == Patches(outlookId, markAsSeen, flagged);
    if folder != "" {
      calls := calls + [ListMailFolders];
      var destination, childRequests := ResolveFolderId(topLevel, children, folder, lower);
      var lookups := seq(|childRequests|, i requires 0 <= i < |childRequests| => ListChildFolders(childRequests[i]));
      assert lookups == ChildLookups(topLevel, folder, lower);
      calls := calls + lookups;
      if destination.Err? {
        return MoveRun(calls, Err(destination.error));
      }
      calls := calls + [MoveTo(outlookId, destination.value)];
      var newId := if moveResponseId != "" then Some(moveResponseId) else None;
      return MoveRun(calls, Ok(MoveResult(true, Some(folder), newId)));
    }
    return MoveRun(calls, Ok(MoveResult(true, None, None)));
  }

  /** A patch is sent for each field that is strictly boolean, and only for those. */
  lemma PatchesOnlyForBooleans(outlookId: string, markAsSeen: JsBool, flagged: JsBool)
    ensures var p := Patches(outlookId, markAsSeen, flagged);
            && ((exists c :: c in p && c.PatchIsRead?) <==> markAsSeen.Some?)
            && ((exists c :: c in p && c.PatchFlag?) <==> flagged.Some?)
            && (forall c :: c in p && c.PatchIsRead? ==> c.isRead == markAsSeen.value)
            && (forall c :: c in p && c.PatchFlag? ==> (c.flagStatus == "flagged" <==> flagged.value))
            && (forall c :: c in p ==> c.messageId == outlookId)
  {
    var p := Patches(outlookId, markAsSeen, flagged);
    if markAsSeen.Some? {
      assert p[0].PatchIsRead?;
    }
    if flagged.Some? {
      assert p[|p| - 1].PatchFlag?;
    }
  }
}
