/**
 * The backend ids of a described DOM subtree: the worklist that collects them, against the tree's
 * own recursive meaning and against paths through it.
 */
module DomTree {
  import opened Options

  /** A value found where a DOM node may be: nothing, something that is no object, or a node. */
  datatype DomValue =
    | Absent
    | Scalar
    | Node(
        backend: Option<int>,
        children: seq<DomValue>, shadowRoots: seq<DomValue>,
        pseudoElements: seq<DomValue>, distributedNodes: seq<DomValue>,
        contentDocument: DomValue, templateContent: DomValue, importedDocument: DomValue)

  function Own(v: DomValue): set<int> { if v.Node? && v.backend.Some? then {v.backend.value} else {} }

  /** The backend ids anywhere in a value. */
  function Ids(v: DomValue): set<int>
    decreases v
  {
    if !v.Node? then {}
    else
      Own(v) + AllIds(v.children) + AllIds(v.shadowRoots) + AllIds(v.pseudoElements) + AllIds(v.distributedNodes)
      + Ids(v.contentDocument) + Ids(v.templateContent) + Ids(v.importedDocument)
  }

  function AllIds(vs: seq<DomValue>): set<int>
    decreases vs
  {
    if vs == [] then {} else Ids(vs[0]) + AllIds(vs[1..])
  }

  function Size(v: DomValue): nat
    decreases v
  {
    if !v.Node? then 1
    else
      1 + TotalSize(v.children) + TotalSize(v.shadowRoots) + TotalSize(v.pseudoElements) + TotalSize(v.distributedNodes)
      + Size(v.contentDocument) + Size(v.templateContent) + Size(v.importedDocument)
  }

  function TotalSize(vs: seq<DomValue>): nat
    decreases vs
  {
    if vs == [] then 0 else Size(vs[0]) + TotalSize(vs[1..])
  }

  lemma {:induction false} Append(vs: seq<DomValue>, ws: seq<DomValue>)
    ensures AllIds(vs + ws) == AllIds(vs) + AllIds(ws) && TotalSize(vs + ws) == TotalSize(vs) + TotalSize(ws)
  {
    if vs == [] {
      assert vs + ws == ws;
    } else {
      assert (vs + ws)[1..] == vs[1..] + ws;
      Append(vs[1..], ws);
    }
  }

  /** What an optional subtree adds to the worklist. */
  function Present(v: DomValue): (r: seq<DomValue>)
    ensures AllIds(r) == Ids(v) && TotalSize(r) <= Size(v)
  {
    if v.Absent? then [] else [v]
  }

  lemma PushedLists(pending: seq<DomValue>, v: DomValue)
    requires v.Node?
    ensures var all := pending + v.children + v.shadowRoots + v.pseudoElements + v.distributedNodes;
            && AllIds(all) == AllIds(pending) + AllIds(v.children) + AllIds(v.shadowRoots)
                              + AllIds(v.pseudoElements) + AllIds(v.distributedNodes)
            && TotalSize(all) == TotalSize(pending) + TotalSize(v.children) + TotalSize(v.shadowRoots)
                                 + TotalSize(v.pseudoElements) + TotalSize(v.distributedNodes)
  {
    Append(pending, v.children);
    Append(pending + v.children, v.shadowRoots);
    Append(pending + v.children + v.shadowRoots, v.pseudoElements);
    Append(pending + v.children + v.shadowRoots + v.pseudoElements, v.distributedNodes);
  }

  lemma PushedDocuments(pending: seq<DomValue>, v: DomValue)
    requires v.Node?
    ensures var all := pending + Present(v.contentDocument) + Present(v.templateContent) + Present(v.importedDocument);
            && AllIds(all) == AllIds(pending) + Ids(v.contentDocument) + Ids(v.templateContent)
                 + Ids(v.importedDocument)
            && TotalSize(all) <= TotalSize(pending) + Size(v.contentDocument) + Size(v.templateContent)
                 + Size(v.importedDocument)
  {
    Append(pending, Present(v.contentDocument));
    Append(pending + Present(v.contentDocument), Present(v.templateContent));
    Append(pending + Present(v.contentDocument) + Present(v.templateContent), Present(v.importedDocument));
  }

  /** subtreeBackendIds(root): the loop over a stack of values still to visit. */
  method SubtreeBackendIds(root: DomValue) returns (ids: set<int>)
    ensures ids == Ids(root)
    ensures forall id :: id in ids <==> Reachable(root, id)
  {
    ids := {};
    var pending := [root];
    while pending != []
      invariant ids + AllIds(pending) == Ids(root)
      decreases TotalSize(pending)
    {
      var node := pending[|pending| - 1];
      Append(pending[..|pending| - 1], [node]);
      assert pending == pending[..|pending| - 1] + [node];
      pending := pending[..|pending| - 1];
      if node.Node? {
        if node.backend.Some? { ids := ids + {node.backend.value}; }
        PushedLists(pending, node);
        pending := pending + node.children + node.shadowRoots + node.pseudoElements + node.distributedNodes;
        PushedDocuments(pending, node);
        pending := pending + Present(node.contentDocument) + Present(node.templateContent)
            + Present(node.importedDocument);
      }
    }
    forall id
      ensures id in ids <==> Reachable(root, id)
    {
      IdsAreReachable(root, id);
    }
  }

  // ------------------------------------------------------------- the same set, along paths

  /** c is a direct part of p through one of the seven fields. */
  predicate PartOf(c: DomValue, p: DomValue) {
    && p.Node?
    && (c in p.children || c in p.shadowRoots || c in p.pseudoElements || c in p.distributedNodes
        || c == p.contentDocument || c == p.templateContent || c == p.importedDocument)
  }

  predicate IsPath(path: seq<DomValue>, root: DomValue, id: int) {
    && path != [] && path[0] == root
    && (forall i :: 0 <= i < |path| - 1 ==> PartOf(path[i + 1], path[i]))
    && path[|path| - 1].Node? && path[|path| - 1].backend == Some(id)
  }

  ghost predicate Reachable(root: DomValue, id: int) {
    exists path :: IsPath(path, root, id)
  }

  lemma PartIds(c: DomValue, p: DomValue)
    requires PartOf(c, p)
    ensures Ids(c) <= Ids(p)
  {
    MemberIds(c, p.children);
    MemberIds(c, p.shadowRoots);
    MemberIds(c, p.pseudoElements);
    MemberIds(c, p.distributedNodes);
  }

  lemma {:induction false} MemberIds(c: DomValue, vs: seq<DomValue>)
    ensures c in vs ==> Ids(c) <= AllIds(vs)
  {
    if vs != [] {
      MemberIds(c, vs[1..]);
      assert c in vs ==> c == vs[0] || c in vs[1..];
    }
  }

  lemma {:induction false} HolderOf(vs: seq<DomValue>, id: int) returns (c: DomValue)
    requires id in AllIds(vs)
    ensures c in vs && id in Ids(c)
  {
    if id in Ids(vs[0]) { c := vs[0]; } else { c := HolderOf(vs[1..], id); }
  }

  /** An id below a node is below one of its direct parts, or its own. */
  lemma Holder(v: DomValue, id: int) returns (c: DomValue)
    requires id in Ids(v) && id !in Own(v)
    ensures PartOf(c, v) && id in Ids(c) && Size(c) < Size(v)
  {
    if id in AllIds(v.children) { c := HolderOf(v.children, id); MemberSize(c, v.children); }
    else if id in AllIds(v.shadowRoots) { c := HolderOf(v.shadowRoots, id); MemberSize(c, v.shadowRoots); }
    else if id in AllIds(v.pseudoElements) { c := HolderOf(v.pseudoElements, id); MemberSize(c, v.pseudoElements); }
    else if id in AllIds(v.distributedNodes) {
      c := HolderOf(v.distributedNodes, id);
      MemberSize(c, v.distributedNodes);
    }
    else if id in Ids(v.contentDocument) { c := v.contentDocument; }
    else if id in Ids(v.templateContent) { c := v.templateContent; }
    else { c := v.importedDocument; }
  }

  lemma {:induction false} MemberSize(c: DomValue, vs: seq<DomValue>)
    requires c in vs
    ensures Size(c) <= TotalSize(vs)
  {
    if c != vs[0] { MemberSize(c, vs[1..]); }
  }

  lemma {:induction false} FindPath(v: DomValue, id: int) returns (path: seq<DomValue>)
    requires id in Ids(v)
    ensures IsPath(path, v, id)
    decreases Size(v)
  {
    if id in Own(v) {
      path := [v];
    } else {
      var c := Holder(v, id);
      var rest := FindPath(c, id);
      path := [v] + rest;
    }
  }

  lemma {:induction false} PathEnds(path: seq<DomValue>, root: DomValue, id: int)
    requires IsPath(path, root, id)
    ensures id in Ids(root)
    decreases |path|
  {
    if |path| > 1 {
      assert IsPath(path[1..], path[1], id);
      PathEnds(path[1..], path[1], id);
      PartIds(path[1], root);
    }
  }

  /** An id is in the set exactly when some chain of the seven fields leads to a node that carries it. */
  lemma IdsAreReachable(root: DomValue, id: int)
    ensures id in Ids(root) <==> Reachable(root, id)
  {
    if id in Ids(root) {
      var path := FindPath(root, id);
    }
    forall path | IsPath(path, root, id)
      ensures id in Ids(root)
    {
      PathEnds(path, root, id);
    }
  }
}
