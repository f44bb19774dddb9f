/**
 * `filterNodes` of the documents explorer: the search box keeps the files
 * whose name contains the search term, ignoring case, and the folders that
 * either match themselves or still hold something after filtering, each
 * with its filtered children.
 */
module DocumentsExplorer {
  import opened Wrappers
  import opened Text
  import opened Sequences
  import opened DocumentNodes

  /** The node's lower-cased name contains the lower-cased term. */
  predicate NameMatches(n: Node, term: string) {
    Contains(Lower(n.name), Lower(term))
  }

  /**
   * `filterNodes(nodes, term)`: with an empty term the input itself;
   * otherwise each node passed through `FilterNode`, in order, the dropped
   * ones left out.
   */
  function FilterNodes(nodes: seq<Node>, term: string): (r: seq<Node>)
    ensures term == "" ==> r == nodes
    ensures |r| <= |nodes|
    decreases nodes, 1
  {
    if term == "" || nodes == [] then nodes
    else
      var rest := FilterNodes(nodes[1..], term);
      match FilterNode(nodes[0], term)
      case Some(m) => [m] + rest
      case None => rest
  }

  /**
   * The callback `filterNodes` maps over the nodes: a file is kept as it is
   * when its name matches; a folder is kept when its name matches or some
   * child survives, and then carries the filtered children; anything else
   * is dropped.
   */
  function FilterNode(n: Node, term: string): (r: Option<Node>)
    requires term != ""
    ensures r.Some? ==> Head(r.value) == Head(n)
    ensures r.Some? && n.FileNode? ==> r.value == n
    ensures n.FileNode? ==> (r.Some? <==> NameMatches(n, term))
    decreases n, 0
  {
    if n.FolderNode? then
      var children := if n.children.Present? then FilterNodes(n.children.nodes, term) else [];
      if NameMatches(n, term) || children != [] then Some(n.(children := Present(children))) else None
    else if NameMatches(n, term) then Some(n) else None
  }

  /** What `FilterNode` does to a folder, in terms of its children. */
  lemma FilterFolder(n: Node, term: string)
    requires term != "" && n.FolderNode?
    ensures var children := FilterNodes(ChildrenOf(n), term);
            && (FilterNode(n, term).Some? <==> NameMatches(n, term) || children != [])
            && (FilterNode(n, term).Some? ==> FilterNode(n, term).value.FolderNode?
                                              && ChildrenOf(FilterNode(n, term).value) == children)
  {
  }

  /** A file is in the result exactly when it is in the input and its name matches. */
  lemma {:induction false} FilterFiles(nodes: seq<Node>, term: string, f: Node)
    requires term != "" && f.FileNode?
    ensures f in FilterNodes(nodes, term) <==> f in nodes && NameMatches(f, term)
    decreases nodes
  {
    if nodes != [] {
      FilterFiles(nodes[1..], term, f);
      assert nodes == [nodes[0]] + nodes[1..];
    }
  }

  /**
   * Every node of the result comes from a node of the input with the same
   * head: a file unchanged and matching, a folder matching or with
   * surviving children, carrying exactly its filtered children.
   */
  lemma {:induction false} FilterOrigins(nodes: seq<Node>, term: string, m: Node)
    requires term != "" && m in FilterNodes(nodes, term)
    ensures exists i :: 0 <= i < |nodes| && FilterNode(nodes[i], term) == Some(m)
    decreases nodes
  {
    if nodes != [] {
      var rest := FilterNodes(nodes[1..], term);
      if FilterNode(nodes[0], term) != Some(m) {
        assert m in rest;
        FilterOrigins(nodes[1..], term, m);
        var i :| 0 <= i < |nodes[1..]| && FilterNode(nodes[1..][i], term) == Some(m);
        assert nodes[i + 1] == nodes[1..][i];
      }
    }
  }

  /** Conversely every input node that `FilterNode` keeps is in the result, as `FilterNode` made it. */
  lemma {:induction false} FilterKeeps(nodes: seq<Node>, term: string, i: int)
    requires term != "" && 0 <= i < |nodes| && FilterNode(nodes[i], term).Some?
    ensures FilterNode(nodes[i], term).value in FilterNodes(nodes, term)
    decreases nodes
  {
    if i > 0 {
      assert nodes[i] == nodes[1..][i - 1];
      FilterKeeps(nodes[1..], term, i - 1);
    }
  }

  /** The result keeps the input's order: its heads are a subsequence of the input's heads. */
  lemma FilterOrder(nodes: seq<Node>, term: string)
    ensures IsSubsequence(Heads(FilterNodes(nodes, term)), Heads(nodes))
  {
    var idx := FilterEmbedding(nodes, term);
  }

  lemma {:induction false} FilterEmbedding(nodes: seq<Node>, term: string) returns (idx: seq<int>)
    ensures IsEmbedding(Heads(FilterNodes(nodes, term)), Heads(nodes), idx)
    decreases nodes
  {
    if term == "" {
      idx := seq(|nodes|, k requires 0 <= k < |nodes| => k);
    } else if nodes == [] {
      idx := [];
    } else {
      var rest := FilterNodes(nodes[1..], term);
      var i0 := FilterEmbedding(nodes[1..], term);
      var hs := Heads(nodes);
      assert hs[1..] == Heads(nodes[1..]);
      var shifted := EmbeddingShift(Heads(rest), hs, i0);
      match FilterNode(nodes[0], term) {
        case Some(m) =>
          idx := [0] + shifted;
          assert Heads([m] + rest) == [hs[0]] + Heads(rest);
        case None =>
          idx := shifted;
      }
    }
  }

  /** Filtering a filtered list again with the same term changes nothing. */
  lemma {:induction false} FilterNodesIdempotent(nodes: seq<Node>, term: string)
    ensures FilterNodes(FilterNodes(nodes, term), term) == FilterNodes(nodes, term)
    decreases nodes, 1
  {
    if term != "" && nodes != [] {
      var rest := FilterNodes(nodes[1..], term);
      FilterNodesIdempotent(nodes[1..], term);
      match FilterNode(nodes[0], term) {
        case Some(m) =>
          FilterNodeIdempotent(nodes[0], term);
          assert ([m] + rest)[1..] == rest;
        case None =>
      }
    }
  }

  /** A node `FilterNode` keeps is kept again unchanged. */
  lemma {:induction false} FilterNodeIdempotent(n: Node, term: string)
    requires term != "" && FilterNode(n, term).Some?
    ensures FilterNode(FilterNode(n, term).value, term) == FilterNode(n, term)
    decreases n, 0
  {
    if n.FolderNode? && n.children.Present? {
      FilterNodesIdempotent(n.children.nodes, term);
    }
  }
}
