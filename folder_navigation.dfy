/**
 * `useFolderNavigation`: the folder view's current folder, its name, the
 * items it lists, and a history stack for going back. Navigating pushes the
 * folder being left; going back pops it, or with an empty history returns
 * to the `all-files-root` document.
 *
 * The hook starts from its initial state (no folder, name `Root`, no items,
 * empty history); the effects that jump to the root folder once documents
 * have loaded are not part of this model.
 */
module FolderNavigation {
  import opened Wrappers
  import opened DocumentNodes
  import opened DocumentConverter

  const AllFilesRootId: string := "all-files-root"
  const InitialFolderName: string := "Root"

  /** Which nodes a `find` accepts besides the id: any, folders only, or files only. */
  datatype Wanted = AnyNode | FolderOnly | FileOnly

  predicate Fits(n: Node, id: string, wanted: Wanted) {
    n.id == id && match wanted
                  case AnyNode => true
                  case FolderOnly => n.FolderNode?
                  case FileOnly => n.FileNode?
  }

  /** `find`: the first node with the id and the wanted kind. */
  function FindFirst(nodes: seq<Node>, id: string, wanted: Wanted): (r: Option<Node>)
    ensures r.None? <==> forall n :: n in nodes ==> !Fits(n, id, wanted)
    ensures r.Some? ==> exists i :: 0 <= i < |nodes| && nodes[i] == r.value && Fits(r.value, id, wanted)
                                    && forall j :: 0 <= j < i ==> !Fits(nodes[j], id, wanted)
  {
    if nodes == [] then None
    else if Fits(nodes[0], id, wanted) then Some(nodes[0])
    else
      var r := FindFirst(nodes[1..], id, wanted);
      assert nodes == [nodes[0]] + nodes[1..];
      assert forall j :: 1 <= j < |nodes| ==> nodes[j] == nodes[1..][j - 1];
      r
  }

  /** The hook's state. */
  datatype NavState = NavState(currentFolder: Option<Node>, folderName: string, folderItems: seq<FolderItem>, folderHistory: seq<Node>)

  function Initial(): NavState {
    NavState(None, InitialFolderName, [], [])
  }

  /** The name and the items shown are those of the current folder, once there is one. */
  predicate Shown(s: NavState) {
    s.currentFolder.Some? ==> s.folderName == s.currentFolder.value.name && s.folderItems == GetFolderChildren(s.currentFolder.value)
  }

  /** Making `folder` current: its name and its converted children are shown. */
  function Show(s: NavState, folder: Node): (r: NavState)
    ensures Shown(r) && r.currentFolder == Some(folder) && r.folderHistory == s.folderHistory
  {
    s.(currentFolder := Some(folder), folderName := folder.name, folderItems := GetFolderChildren(folder))
  }

  /** `navigateToFolder`. */
  function ToFolder(s: NavState, documents: seq<Node>, folder: Node): NavState {
    var root := FindFirst(documents, AllFilesRootId, AnyNode);
    var history := if root.Some? && |s.folderHistory| == 0 then [root.value] else s.folderHistory;
    Show(s.(folderHistory := history), folder)
  }

  /** The folder child of the current folder that `navigateToFolderById` looks for. */
  function TargetFolder(s: NavState, folderId: string): Option<Node> {
    if s.currentFolder.Some? then FindFirst(ChildrenOf(s.currentFolder.value), folderId, FolderOnly) else None
  }

  /** `navigateToFolderById`. */
  function ToFolderById(s: NavState, folderId: string): NavState {
    var target := TargetFolder(s, folderId);
    if target.None? then s
    else Show(s.(folderHistory := s.folderHistory + [s.currentFolder.value]), target.value)
  }

  /** `navigateBack`. */
  function Back(s: NavState, documents: seq<Node>): NavState {
    if |s.folderHistory| > 0 then
      var previous := s.folderHistory[|s.folderHistory| - 1];
      Show(s.(folderHistory := s.folderHistory[..|s.folderHistory| - 1]), previous)
    else
      var root := FindFirst(documents, AllFilesRootId, AnyNode);
      (if root.Some? then Show(s, root.value) else s).(folderHistory := [])
  }

  /** `handleFolderFileClick`: the current folder's first child file with the id. */
  function FileClick(s: NavState, fileId: string): (r: Option<Node>)
    ensures r.Some? ==> r.value.FileNode? && r.value.id == fileId
                        && s.currentFolder.Some? && r.value in ChildrenOf(s.currentFolder.value)
    ensures r.None? <==> s.currentFolder.None? || forall c :: c in ChildrenOf(s.currentFolder.value) ==> !(c.FileNode? && c.id == fileId)
  {
    if s.currentFolder.Some? then FindFirst(ChildrenOf(s.currentFolder.value), fileId, FileOnly) else None
  }

  /**
   * `navigateToFolder(f)` makes `f` current and shows it; the history
   * becomes the root folder alone when it was empty and the root exists,
   * and is unchanged otherwise.
   */
  lemma ToFolderOutcome(s: NavState, documents: seq<Node>, folder: Node)
    ensures var t := ToFolder(s, documents, folder);
            && t.currentFolder == Some(folder) && Shown(t)
            && (|s.folderHistory| == 0 && (exists n :: n in documents && n.id == AllFilesRootId) ==>
                  |t.folderHistory| == 1 && t.folderHistory[0] in documents && t.folderHistory[0].id == AllFilesRootId)
            && (|s.folderHistory| > 0 || (forall n :: n in documents ==> n.id != AllFilesRootId) ==>
                  t.folderHistory == s.folderHistory)
  {
    var root := FindFirst(documents, AllFilesRootId, AnyNode);
    if root.None? {
      assert forall n :: n in documents ==> !Fits(n, AllFilesRootId, AnyNode);
    }
  }

  /**
   * `navigateToFolderById(id)`: when the current folder has a folder child
   * with that id, the current folder is pushed and that child is shown;
   * otherwise nothing changes.
   */
  lemma ToFolderByIdOutcome(s: NavState, folderId: string)
    ensures var t := ToFolderById(s, folderId);
            && (TargetFolder(s, folderId).Some? ==>
                  && s.currentFolder.Some?
                  && t.folderHistory == s.folderHistory + [s.currentFolder.value]
                  && t.currentFolder.Some? && t.currentFolder.value.FolderNode? && t.currentFolder.value.id == folderId
                  && t.currentFolder.value in ChildrenOf(s.currentFolder.value)
                  && Shown(t))
            && (TargetFolder(s, folderId).None? ==> t == s)
            && (TargetFolder(s, folderId).None? <==>
                  s.currentFolder.None? || forall c :: c in ChildrenOf(s.currentFolder.value) ==> !(c.FolderNode? && c.id == folderId))
  {
  }

  /**
   * `navigateBack`: with a history, its last folder becomes current and is
   * popped; without one, the root folder becomes current if it exists, and
   * the history stays empty.
   */
  lemma BackOutcome(s: NavState, documents: seq<Node>)
    ensures var t := Back(s, documents);
            && (|s.folderHistory| > 0 ==>
                  && t.currentFolder == Some(s.folderHistory[|s.folderHistory| - 1])
                  && t.folderHistory == s.folderHistory[..|s.folderHistory| - 1]
                  && Shown(t))
            && (|s.folderHistory| == 0 ==> t.folderHistory == [])
            && (|s.folderHistory| == 0 && (exists n :: n in documents && n.id == AllFilesRootId) ==>
                  t.currentFolder.Some? && t.currentFolder.value in documents && t.currentFolder.value.id == AllFilesRootId && Shown(t))
            && (|s.folderHistory| == 0 && (forall n :: n in documents ==> n.id != AllFilesRootId) ==>
                  t == s.(folderHistory := []))
  {
    var root := FindFirst(documents, AllFilesRootId, AnyNode);
    if root.None? {
      assert forall n :: n in documents ==> !Fits(n, AllFilesRootId, AnyNode);
    }
  }

  /** Every navigation keeps the shown name and items those of the current folder. */
  lemma NavigationKeepsShown(s: NavState, documents: seq<Node>, folder: Node, folderId: string)
    requires Shown(s)
    ensures Shown(ToFolder(s, documents, folder))
    ensures Shown(ToFolderById(s, folderId))
    ensures Shown(Back(s, documents))
  {
  }

  /** Entering a child folder and going back restores the whole state. */
  lemma ToFolderByIdThenBack(s: NavState, documents: seq<Node>, folderId: string)
    requires Shown(s) && TargetFolder(s, folderId).Some?
    ensures Back(ToFolderById(s, folderId), documents) == s
  {
    var t := ToFolderById(s, folderId);
    assert t.folderHistory[..|t.folderHistory| - 1] == s.folderHistory;
  }

  /** The folder view's navigation state. */
  class FolderNavigator {
    const documents: seq<Node>
    var currentFolder: Option<Node>
    var folderName: string
    var folderItems: seq<FolderItem>
    var folderHistory: seq<Node>

    function State(): NavState
      reads this
    {
      NavState(currentFolder, folderName, folderItems, folderHistory)
    }

    constructor(documents: seq<Node>)
      ensures this.documents == documents
      ensures State() == Initial()
    {
      this.documents := documents;
      currentFolder, folderName, folderItems, folderHistory := None, InitialFolderName, [], [];
    }

    method NavigateToFolder(folder: Node)
      modifies this
      ensures State() == ToFolder(old(State()), documents, folder)
    {
      var root := FindFirst(documents, AllFilesRootId, AnyNode);
      if root.Some? && |folderHistory| == 0 {
        folderHistory := [root.value];
      }
      currentFolder := Some(folder);
      folderName := folder.name;
      folderItems := GetFolderChildren(folder);
    }

    method NavigateToFolderById(folderId: string)
      modifies this
      ensures State() == ToFolderById(old(State()), folderId)
    {
      var target := if currentFolder.Some? then FindFirst(ChildrenOf(currentFolder.value), folderId, FolderOnly) else None;
      if target.Some? {
        folderHistory := folderHistory + [currentFolder.value];
        currentFolder := target;
        folderName := target.value.name;
        folderItems := GetFolderChildren(target.value);
      }
    }

    method NavigateBack()
      modifies this
      ensures State() == Back(old(State()), documents)
    {
      if |folderHistory| > 0 {
        var previousFolder := folderHistory[|folderHistory| - 1];
        currentFolder := Some(previousFolder);
        folderName := previousFolder.name;
        folderHistory := folderHistory[..|folderHistory| - 1];
        folderItems := GetFolderChildren(previousFolder);
      } else {
        var root := FindFirst(documents, AllFilesRootId, AnyNode);
        if root.Some? {
          currentFolder := root;
          folderName := root.value.name;
          folderItems := GetFolderChildren(root.value);
        }
        folderHistory := [];
      }
    }

    method HandleFolderFileClick(fileId: string) returns (file: Option<Node>)
      ensures file == FileClick(State(), fileId)
    {
      file := if currentFolder.Some? then FindFirst(ChildrenOf(currentFolder.value), fileId, FileOnly) else None;
    }
  }
}
