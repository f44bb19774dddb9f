/** `documentConverter`: tree nodes become the items the folder view lists. */
module DocumentConverter {
  import opened Wrappers
  import opened DocumentNodes

  /** A `FolderItem`: a folder with the number of its children, or a file with its type. */
  datatype FolderItem =
    | FolderEntry(id: string, name: string, count: nat, createdAt: string)
    | FileEntry(id: string, name: string, fileType: Option<string>, createdAt: string)

  /** `convertDocumentNodeToFolderItem`. */
  function ConvertNode(node: Node): (r: FolderItem)
    ensures r.id == node.id && r.name == node.name && r.createdAt == node.createdAt
    ensures r.FolderEntry? <==> node.FolderNode?
    ensures r.FolderEntry? ==> r.count == |ChildrenOf(node)|
    ensures r.FileEntry? ==> r.fileType == node.fileType
  {
    match node
    case FolderNode(id, name, createdAt, children) =>
      FolderEntry(id, name, if children.Present? then |children.nodes| else 0, createdAt)
    case FileNode(id, name, createdAt, fileType) =>
      FileEntry(id, name, fileType, createdAt)
  }

  /** `convertDocumentNodesToFolderItems`: one item per node, in order. */
  function ConvertNodes(nodes: seq<Node>): (r: seq<FolderItem>)
    ensures |r| == |nodes|
    ensures forall i :: 0 <= i < |nodes| ==> r[i] == ConvertNode(nodes[i])
  {
    seq(|nodes|, i requires 0 <= i < |nodes| => ConvertNode(nodes[i]))
  }

  function NodeIds(nodes: seq<Node>): seq<string> {
    seq(|nodes|, i requires 0 <= i < |nodes| => nodes[i].id)
  }

  function ItemIds(items: seq<FolderItem>): seq<string> {
    seq(|items|, i requires 0 <= i < |items| => items[i].id)
  }

  /** Converting keeps every node's id, in order. */
  lemma ConvertNodesKeepsIds(nodes: seq<Node>)
    ensures ItemIds(ConvertNodes(nodes)) == NodeIds(nodes)
  {
  }

  /** Converting a concatenation converts its parts. */
  lemma ConvertNodesAppend(nodes: seq<Node>, more: seq<Node>)
    ensures ConvertNodes(nodes + more) == ConvertNodes(nodes) + ConvertNodes(more)
  {
    var all := ConvertNodes(nodes + more);
    assert forall i :: 0 <= i < |more| ==> all[|nodes| + i] == ConvertNode(more[i]);
  }

  /**
   * `getFolderChildren`: the early return for absent or empty children agrees
   * with converting the children, and a folder's item counts exactly the items
   * its view lists.
   */
  function GetFolderChildren(folder: Node): (r: seq<FolderItem>)
    ensures r == ConvertNodes(ChildrenOf(folder))
    ensures folder.FolderNode? ==> |r| == ConvertNode(folder).count
  {
    if folder.FolderNode? && folder.children.Present? && |folder.children.nodes| > 0 then ConvertNodes(folder.children.nodes)
    else []
  }
}
