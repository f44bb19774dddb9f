/** The document tree the explorer and the folder view show. */
module DocumentNodes {
  import opened Wrappers

  /**
   * A `DocumentNode`: a file, or a folder whose `children` may be absent.
   * `fileType` is the file's type as the stored record carries it; it may
   * be missing.
   */
  datatype Node =
    | FileNode(id: string, name: string, createdAt: string, fileType: Option<string>)
    | FolderNode(id: string, name: string, createdAt: string, children: ChildList)

  /** A folder's optional `children` array. */
  datatype ChildList = Absent | Present(nodes: seq<Node>)

  /** `children ?? []`: the children of a folder; none for a file or a folder without them. */
  function ChildrenOf(n: Node): (r: seq<Node>)
    ensures r != [] ==> n.FolderNode? && n.children == Present(r)
  {
    if n.FolderNode? && n.children.Present? then n.children.nodes else []
  }

  /** A node without its children: what identifies it at its own level of the tree. */
  function Head(n: Node): (r: Node)
    ensures r.id == n.id && r.name == n.name && r.FolderNode? == n.FolderNode?
    ensures ChildrenOf(r) == []
  {
    if n.FolderNode? then n.(children := Absent) else n
  }

  function Heads(nodes: seq<Node>): (r: seq<Node>)
    ensures |r| == |nodes| && forall i :: 0 <= i < |nodes| ==> r[i] == Head(nodes[i])
  {
    seq(|nodes|, i requires 0 <= i < |nodes| => Head(nodes[i]))
  }
}
