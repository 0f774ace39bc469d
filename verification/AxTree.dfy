/** The Accessibility snapshot: which nodes a foreign frame hides, and which references are minted. */
module AxTree {
  import opened Options
  import opened Decimal

  datatype Stamp = Stamp(frameId: string, loaderId: string, url: string, backendId: int)

  datatype SavedRef = SavedRef(backendId: int, generation: nat, document: Stamp)

  datatype AxNode = AxNode(nodeId: string, frameId: Option<string>, childIds: seq<string>, backendId: Option<int>)

  /** A node names a frame other than the main one. An absent or empty frame id names none. */
  predicate Foreign(node: AxNode, frame: string) {
    node.frameId.Some? && node.frameId.value != "" && node.frameId.value != frame
  }

  type Index = map<string, AxNode>

  /** A JavaScript Map built from [nodeId, node] pairs: the last of several equal keys wins. */
  function ById(nodes: seq<AxNode>): (m: Index)
    ensures forall id :: id in m ==> m[id] in nodes && m[id].nodeId == id
    ensures forall node :: node in nodes ==> node.nodeId in m
  {
    if nodes == [] then map[]
    else
      var last := nodes[|nodes| - 1];
      ById(nodes[..|nodes| - 1])[last.nodeId := last]
  }

  ghost predicate Keyed(byId: Index) { forall id :: id in byId ==> byId[id].nodeId == id }

  // ---------------------------------------------------------------- the recursive exclusion

  function Exclude(byId: Index, node: AxNode, excluded: set<string>): (r: set<string>)
    requires Keyed(byId) && node.nodeId in byId
    ensures excluded <= r
    decreases byId.Keys - excluded, 0
  {
    if node.nodeId in excluded then excluded
    else
      assert node.nodeId in byId.Keys - excluded;
      ExcludeAll(byId, node.childIds, excluded + {node.nodeId})
  }

  function ExcludeAll(byId: Index, ids: seq<string>, excluded: set<string>): (r: set<string>)
    requires Keyed(byId)
    ensures excluded <= r
    decreases byId.Keys - excluded, |ids| + 1
  {
    if ids == [] then excluded
    else
      var first := if ids[0] in byId then Exclude(byId, byId[ids[0]], excluded) else excluded;
      assert byId.Keys - first <= byId.Keys - excluded;
      assert byId.Keys - first == byId.Keys - excluded || byId.Keys - first < byId.Keys - excluded;
      ExcludeAll(byId, ids[1..], first)
  }

  /** The loop over the returned nodes that starts an exclusion at every foreign one. */
  function ExcludeForeign(byId: Index, nodes: seq<AxNode>, frame: string, excluded: set<string>): (r: set<string>)
    requires Keyed(byId) && forall node :: node in nodes ==> node.nodeId in byId
    ensures excluded <= r
  {
    if nodes == [] then excluded
    else
      ExcludeForeign(byId, nodes[1..], frame,
                     if Foreign(nodes[0], frame) then Exclude(byId, nodes[0], excluded) else excluded)
  }

  function Excluded(nodes: seq<AxNode>, frame: string): set<string> {
    ExcludeForeign(ById(nodes), nodes, frame, {})
  }

  /** The same search as the source runs it: one shared set that the recursion grows. */
  class Exclusion {
    var excluded: set<string>

    constructor ()
      ensures excluded == {}
    {
      excluded := {};
    }

    method ExcludeNode(byId: Index, node: AxNode)
      requires Keyed(byId) && node.nodeId in byId
      modifies this
      ensures excluded == Exclude(byId, node, old(excluded))
      decreases byId.Keys - excluded, 0
    {
      if node.nodeId in excluded { return; }
      excluded := excluded + {node.nodeId};
      assert node.nodeId in byId.Keys - old(excluded);
      ghost var start := excluded;
      for i := 0 to |node.childIds|
        invariant start <= excluded
        invariant ExcludeAll(byId, node.childIds, start) == ExcludeAll(byId, node.childIds[i..], excluded)
      {
        assert node.childIds[i..][1..] == node.childIds[i + 1..];
        if node.childIds[i] in byId {
          ExcludeNode(byId, byId[node.childIds[i]]);
        }
      }
    }

    method ExcludeForeignNodes(nodes: seq<AxNode>, frame: string)
      requires excluded == {}
      modifies this
      ensures excluded == Excluded(nodes, frame)
    {
      var byId := ById(nodes);
      for i := 0 to |nodes|
        invariant Excluded(nodes, frame) == ExcludeForeign(byId, nodes[i..], frame, excluded)
      {
        assert nodes[i..][1..] == nodes[i + 1..];
        if Foreign(nodes[i], frame) {
          ExcludeNode(byId, nodes[i]);
        }
      }
    }
  }

  // ------------------------------------------------------------------------- reachability

  predicate Link(byId: Index, parent: string, child: string) {
    parent in byId && child in byId && child in byId[parent].childIds
  }

  /** A path of child links between nodes that exist. */
  ghost predicate Walk(byId: Index, p: seq<string>) {
    |p| > 0 && p[0] in byId
    && (|p| > 1 ==> Walk(byId, p[..|p| - 1]) && Link(byId, p[|p| - 2], p[|p| - 1]))
  }

  ghost predicate Reaches(byId: Index, source: string, target: string) {
    exists p :: Walk(byId, p) && p[0] == source && p[|p| - 1] == target
  }

  /** An id that the children of foreign nodes lead to, where `index` says whose children an id has. */
  ghost predicate UnderForeignBy(index: Index, nodes: seq<AxNode>, frame: string, id: string) {
    exists node :: node in nodes && Foreign(node, frame) && Reaches(index, node.nodeId, id)
  }

  ghost predicate UnderForeign(nodes: seq<AxNode>, frame: string, id: string) {
    UnderForeignBy(ById(nodes), nodes, frame, id)
  }

  /** Every foreign node has the children of the last node with its id. Holds whenever ids are unique. */
  predicate ForeignAgree(nodes: seq<AxNode>, frame: string) {
    forall a :: a in nodes && Foreign(a, frame) ==> ById(nodes)[a.nodeId].childIds == a.childIds
  }

  ghost predicate Closed(byId: Index, s: set<string>, beyond: set<string>) {
    forall id, child :: id in s - beyond && Link(byId, id, child) ==> child in s
  }

  lemma ReachesStep(byId: Index, source: string, middle: string, target: string)
    requires Reaches(byId, source, middle) && Link(byId, middle, target)
    ensures Reaches(byId, source, target)
  {
    var p :| Walk(byId, p) && p[0] == source && p[|p| - 1] == middle;
    var q := p + [target];
    assert q[..|q| - 1] == p;
    assert Walk(byId, q) && q[0] == source && q[|q| - 1] == target;
  }

  /** Whatever one exclusion adds is reached from its start, and leaves no added node half explored. */
  lemma {:induction false} ExcludeAddsReachable(byId: Index, node: AxNode, excluded: set<string>, source: string)
    requires Keyed(byId) && node.nodeId in byId && byId[node.nodeId].childIds == node.childIds
    requires Reaches(byId, source, node.nodeId)
    ensures var r := Exclude(byId, node, excluded);
            && node.nodeId in r && Closed(byId, r, excluded)
            && forall id :: id in r - excluded ==> Reaches(byId, source, id)
    decreases byId.Keys - excluded, 0
  {
    if node.nodeId !in excluded {
      assert node.nodeId in byId.Keys - excluded;
      var start := excluded + {node.nodeId};
      forall id | id in node.childIds && id in byId
        ensures Reaches(byId, source, id)
      {
        assert Link(byId, node.nodeId, id);
        ReachesStep(byId, source, node.nodeId, id);
      }
      ExcludeAllAddsReachable(byId, node.childIds, start, source);
    }
  }

  lemma {:induction false} ExcludeAllAddsReachable(byId: Index, ids: seq<string>, excluded: set<string>, source: string)
    requires Keyed(byId)
    requires forall id :: id in ids && id in byId ==> Reaches(byId, source, id)
    ensures var r := ExcludeAll(byId, ids, excluded);
            && (forall id :: id in ids && id in byId ==> id in r) && Closed(byId, r, excluded)
            && forall id :: id in r - excluded ==> Reaches(byId, source, id)
    decreases byId.Keys - excluded, |ids| + 1
  {
    if ids != [] {
      var first := if ids[0] in byId then Exclude(byId, byId[ids[0]], excluded) else excluded;
      if ids[0] in byId {
        ExcludeAddsReachable(byId, byId[ids[0]], excluded, source);
      }
      assert byId.Keys - first <= byId.Keys - excluded;
      assert byId.Keys - first == byId.Keys - excluded || byId.Keys - first < byId.Keys - excluded;
      ExcludeAllAddsReachable(byId, ids[1..], first, source);
      assert forall id :: id in ids ==> id == ids[0] || id in ids[1..];
    }
  }

  lemma {:induction false} ClosedHoldsWalks(byId: Index, s: set<string>, p: seq<string>)
    requires Closed(byId, s, {}) && Walk(byId, p) && p[0] in s
    ensures p[|p| - 1] in s
    decreases |p|
  {
    if |p| > 1 {
      ClosedHoldsWalks(byId, s, p[..|p| - 1]);
    }
  }

  lemma ClosedHoldsReached(byId: Index, s: set<string>, source: string, target: string)
    requires Closed(byId, s, {}) && source in s && Reaches(byId, source, target)
    ensures target in s
  {
    var p :| Walk(byId, p) && p[0] == source && p[|p| - 1] == target;
    ClosedHoldsWalks(byId, s, p);
  }

  lemma UnderForeignIsHeld(index: Index, nodes: seq<AxNode>, frame: string, s: set<string>, id: string)
    requires Closed(index, s, {}) && UnderForeignBy(index, nodes, frame, id)
    requires forall node :: node in nodes && Foreign(node, frame) ==> node.nodeId in s
    ensures id in s
  {
    var node :| node in nodes && Foreign(node, frame) && Reaches(index, node.nodeId, id);
    ClosedHoldsReached(index, s, node.nodeId, id);
  }

  // ----------------------------------------------------------- what the loop hides, of any list

  ghost predicate Knows(byId: Index, nodes: seq<AxNode>) {
    Keyed(byId) && forall node :: node in nodes ==> node.nodeId in byId
  }

  /**
   * Whose children an id has: those of its last node, or those of a foreign node with that id when no
   * foreign node before that one leads to it.
   */
  ghost function Stands(last: Index, nodes: seq<AxNode>, frame: string): Index {
    if nodes == [] then last
    else
      var earlier, node := nodes[..|nodes| - 1], nodes[|nodes| - 1];
      var before := Stands(last, earlier, frame);
      if Foreign(node, frame) && !UnderForeignBy(before, earlier, frame, node.nodeId)
      then before[node.nodeId := node]
      else before
  }

  ghost function StandsFor(nodes: seq<AxNode>, frame: string): Index { Stands(ById(nodes), nodes, frame) }

  lemma {:induction false} ExcludeForeignAppend(
      byId: Index, nodes: seq<AxNode>, node: AxNode, frame: string, excluded: set<string>)
    requires Knows(byId, nodes) && node.nodeId in byId
    ensures Knows(byId, nodes + [node])
    ensures var r := ExcludeForeign(byId, nodes, frame, excluded);
            ExcludeForeign(byId, nodes + [node], frame, excluded)
              == if Foreign(node, frame) then Exclude(byId, node, r) else r
    decreases |nodes|
  {
    if nodes == [] {
      assert [node][1..] == [] && [] + [node] == [node];
    } else {
      assert (nodes + [node])[1..] == nodes[1..] + [node];
      ExcludeForeignAppend(byId, nodes[1..], node, frame,
                           if Foreign(nodes[0], frame) then Exclude(byId, nodes[0], excluded) else excluded);
    }
  }

  lemma {:induction false} ExcludeSame(byId: Index, index: Index, node: AxNode, excluded: set<string>)
    requires Keyed(byId) && Keyed(index) && index.Keys == byId.Keys && node.nodeId in byId
    requires forall id :: id in Exclude(byId, node, excluded) - excluded - {node.nodeId} && id in byId ==>
               index[id] == byId[id]
    ensures Exclude(index, node, excluded) == Exclude(byId, node, excluded)
    decreases byId.Keys - excluded, 0
  {
    if node.nodeId !in excluded {
      assert node.nodeId in byId.Keys - excluded;
      ExcludeAllSame(byId, index, node.childIds, excluded + {node.nodeId});
    }
  }

  lemma {:induction false} ExcludeAllSame(byId: Index, index: Index, ids: seq<string>, excluded: set<string>)
    requires Keyed(byId) && Keyed(index) && index.Keys == byId.Keys
    requires forall id :: id in ExcludeAll(byId, ids, excluded) - excluded && id in byId ==> index[id] == byId[id]
    ensures ExcludeAll(index, ids, excluded) == ExcludeAll(byId, ids, excluded)
    decreases byId.Keys - excluded, |ids| + 1
  {
    if ids != [] {
      var first := if ids[0] in byId then Exclude(byId, byId[ids[0]], excluded) else excluded;
      assert byId.Keys - first <= byId.Keys - excluded;
      assert byId.Keys - first == byId.Keys - excluded || byId.Keys - first < byId.Keys - excluded;
      if ids[0] in byId {
        ExcludeSame(byId, index, byId[ids[0]], excluded);
        if ids[0] !in excluded { assert index[ids[0]] == byId[ids[0]]; }
      }
      ExcludeAllSame(byId, index, ids[1..], first);
    }
  }

  /** A walk through a closed set is one by any index that agrees on the set. */
  lemma {:induction false} WalkStays(before: Index, after: Index, s: set<string>, p: seq<string>)
    requires Closed(before, s, {}) && Walk(before, p) && p[0] in s && before.Keys == after.Keys
    requires forall id :: id in s && id in before ==> after[id] == before[id]
    ensures Walk(after, p) && p[|p| - 1] in s
    decreases |p|
  {
    if |p| > 1 { WalkStays(before, after, s, p[..|p| - 1]); }
  }

  lemma ReachesStays(before: Index, after: Index, s: set<string>, source: string, target: string)
    requires Closed(before, s, {}) && Reaches(before, source, target) && source in s && before.Keys == after.Keys
    requires forall id :: id in s && id in before ==> after[id] == before[id]
    ensures Reaches(after, source, target)
  {
    var p :| Walk(before, p) && p[0] == source && p[|p| - 1] == target;
    WalkStays(before, after, s, p);
  }

  /** What is known of the loop after some nodes: its set is closed, and is what the foreign ones lead to. */
  ghost predicate Explored(last: Index, index: Index, nodes: seq<AxNode>, frame: string, excluded: set<string>) {
    && Keyed(index) && index.Keys == last.Keys && Closed(index, excluded, {})
    && (forall id :: id in index && id !in excluded ==> index[id] == last[id])
    && (forall id {:trigger UnderForeignBy(index, nodes, frame, id)} :: id in excluded ==>
          UnderForeignBy(index, nodes, frame, id))
    && (forall node :: node in nodes && Foreign(node, frame) ==> node.nodeId in excluded)
  }

  lemma ExploredIsExact(last: Index, index: Index, nodes: seq<AxNode>, frame: string, excluded: set<string>, id: string)
    requires Explored(last, index, nodes, frame, excluded)
    ensures id in excluded <==> UnderForeignBy(index, nodes, frame, id)
  {
    if UnderForeignBy(index, nodes, frame, id) { UnderForeignIsHeld(index, nodes, frame, excluded, id); }
  }

  lemma UnderMore(index: Index, nodes: seq<AxNode>, more: seq<AxNode>, frame: string, id: string)
    requires UnderForeignBy(index, nodes, frame, id)
    ensures UnderForeignBy(index, nodes + more, frame, id)
  {
    var source :| source in nodes && Foreign(source, frame) && Reaches(index, source.nodeId, id);
    assert source in nodes + more;
  }

  /** What was found stays found when a node enters that was not. */
  lemma UnderStays(before: Index, after: Index, nodes: seq<AxNode>, frame: string, excluded: set<string>, id: string)
    requires Closed(before, excluded, {}) && before.Keys == after.Keys && UnderForeignBy(before, nodes, frame, id)
    requires forall a :: a in excluded && a in before ==> after[a] == before[a]
    requires forall node :: node in nodes && Foreign(node, frame) ==> node.nodeId in excluded
    ensures UnderForeignBy(after, nodes, frame, id)
  {
    var source :| source in nodes && Foreign(source, frame) && Reaches(before, source.nodeId, id);
    ReachesStays(before, after, excluded, source.nodeId, id);
  }

  /** The loop enters a foreign node that it has not excluded: the node then stands for its id. */
  lemma EnterExplored(last: Index, index: Index, nodes: seq<AxNode>, frame: string, excluded: set<string>, node: AxNode)
    requires Explored(last, index, nodes, frame, excluded) && Keyed(last) && node.nodeId in last
    requires Foreign(node, frame) && node.nodeId !in excluded
    ensures Explored(last, index[node.nodeId := node], nodes + [node], frame, Exclude(last, node, excluded))
  {
    var after := index[node.nodeId := node];
    ExcludeSame(last, after, node, excluded);
    EnterReaches(after, node, excluded, Exclude(after, node, excluded));
    EnterCloses(index, node, excluded, Exclude(after, node, excluded));
    EnteredExplored(last, index, nodes, frame, excluded, node, Exclude(after, node, excluded));
  }

  lemma EnteredExplored(last: Index, index: Index, nodes: seq<AxNode>, frame: string, excluded: set<string>,
                        node: AxNode, r: set<string>)
    requires Explored(last, index, nodes, frame, excluded) && node.nodeId in last && Foreign(node, frame)
    requires node.nodeId !in excluded && node.nodeId in r && excluded <= r
    requires Closed(index[node.nodeId := node], r, {})
    requires forall id :: id in r - excluded ==> Reaches(index[node.nodeId := node], node.nodeId, id)
    ensures Explored(last, index[node.nodeId := node], nodes + [node], frame, r)
  {
    var after := index[node.nodeId := node];
    forall id {:trigger UnderForeignBy(after, nodes + [node], frame, id)} | id in r
      ensures UnderForeignBy(after, nodes + [node], frame, id)
    {
      assert id in excluded || id in r - excluded;
      UnderEntered(last, index, nodes, frame, excluded, node, id);
    }
  }

  lemma UnderEntered(last: Index, index: Index, nodes: seq<AxNode>, frame: string, excluded: set<string>,
                     node: AxNode, id: string)
    requires Explored(last, index, nodes, frame, excluded) && Foreign(node, frame)
    requires node.nodeId in last && node.nodeId !in excluded
    requires id in excluded || Reaches(index[node.nodeId := node], node.nodeId, id)
    ensures UnderForeignBy(index[node.nodeId := node], nodes + [node], frame, id)
  {
    if id in excluded {
      assert UnderForeignBy(index, nodes, frame, id);
      UnderStays(index, index[node.nodeId := node], nodes, frame, excluded, id);
      UnderMore(index[node.nodeId := node], nodes, [node], frame, id);
    } else {
      assert node in nodes + [node];
    }
  }

  lemma EnterReaches(after: Index, node: AxNode, excluded: set<string>, r: set<string>)
    requires Keyed(after) && node.nodeId in after && after[node.nodeId] == node && r == Exclude(after, node, excluded)
    ensures node.nodeId in r && Closed(after, r, excluded)
    ensures forall id :: id in r - excluded ==> Reaches(after, node.nodeId, id)
  {
    assert Walk(after, [node.nodeId]);
    assert Reaches(after, node.nodeId, node.nodeId);
    ExcludeAddsReachable(after, node, excluded, node.nodeId);
  }

  lemma EnterCloses(index: Index, node: AxNode, excluded: set<string>, r: set<string>)
    requires Keyed(index) && node.nodeId in index && node.nodeId !in excluded && excluded <= r
    requires Closed(index, excluded, {}) && Closed(index[node.nodeId := node], r, excluded)
    ensures Closed(index[node.nodeId := node], r, {})
  {
    var after := index[node.nodeId := node];
    forall id, child | id in r && Link(after, id, child)
      ensures child in r
    {
      if id in excluded { assert Link(index, id, child); }
    }
  }

  /** A node that is not foreign, or excluded already, changes nothing. */
  lemma PassExplored(last: Index, index: Index, nodes: seq<AxNode>, frame: string, excluded: set<string>, node: AxNode)
    requires Explored(last, index, nodes, frame, excluded)
    requires !Foreign(node, frame) || node.nodeId in excluded
    ensures Explored(last, index, nodes + [node], frame, excluded)
  {
    forall id | id in excluded
      ensures UnderForeignBy(index, nodes + [node], frame, id)
    {
      UnderMore(index, nodes, [node], frame, id);
    }
  }

  lemma {:induction false} LoopExplores(last: Index, nodes: seq<AxNode>, frame: string)
    requires Knows(last, nodes)
    ensures Explored(last, Stands(last, nodes, frame), nodes, frame, ExcludeForeign(last, nodes, frame, {}))
  {
    if nodes != [] {
      var earlier, node := nodes[..|nodes| - 1], nodes[|nodes| - 1];
      LoopExplores(last, earlier, frame);
      NextExplored(last, earlier, frame, node, Stands(last, earlier, frame), ExcludeForeign(last, earlier, frame, {}));
      assert nodes == earlier + [node];
    }
  }

  lemma StandsNext(last: Index, nodes: seq<AxNode>, frame: string, node: AxNode)
    ensures var before := Stands(last, nodes, frame);
            Stands(last, nodes + [node], frame)
              == if Foreign(node, frame) && !UnderForeignBy(before, nodes, frame, node.nodeId)
                 then before[node.nodeId := node]
                 else before
  {
    assert (nodes + [node])[..|nodes|] == nodes;
  }

  lemma NextExplored(last: Index, nodes: seq<AxNode>, frame: string, node: AxNode, index: Index, excluded: set<string>)
    requires Knows(last, nodes) && node.nodeId in last && Explored(last, index, nodes, frame, excluded)
    requires index == Stands(last, nodes, frame) && excluded == ExcludeForeign(last, nodes, frame, {})
    ensures Knows(last, nodes + [node])
    ensures Explored(last, Stands(last, nodes + [node], frame), nodes + [node], frame,
                     ExcludeForeign(last, nodes + [node], frame, {}))
  {
    ExcludeForeignAppend(last, nodes, node, frame, {});
    StandsNext(last, nodes, frame, node);
    ExploredIsExact(last, index, nodes, frame, excluded, node.nodeId);
    if Foreign(node, frame) && node.nodeId !in excluded {
      EnterExplored(last, index, nodes, frame, excluded, node);
    } else {
      PassExplored(last, index, nodes, frame, excluded, node);
    }
  }

  lemma ListExplored(nodes: seq<AxNode>, frame: string)
    ensures Explored(ById(nodes), StandsFor(nodes, frame), nodes, frame, Excluded(nodes, frame))
  {
    LoopExplores(ById(nodes), nodes, frame);
  }

  /** What is excluded of any list at all: the ids that foreign nodes lead to, with the children that ids stand for. */
  lemma ExcludedExactly(nodes: seq<AxNode>, frame: string, id: string)
    ensures id in Excluded(nodes, frame) <==> UnderForeignBy(StandsFor(nodes, frame), nodes, frame, id)
  {
    ListExplored(nodes, frame);
    ExploredIsExact(ById(nodes), StandsFor(nodes, frame), nodes, frame, Excluded(nodes, frame), id);
  }

  /**
   * Where an id stands for other children than its last node has, both nodes' children are under
   * foreign nodes: those it stands for by the last nodes, and the last node's by what ids stand for.
   */
  ghost predicate ChildrenAgree(last: Index, stands: Index, nodes: seq<AxNode>, frame: string) {
    forall id, child :: id in last && id in stands && stands[id].childIds != last[id].childIds ==>
      && (Link(stands, id, child) ==> UnderForeignBy(last, nodes, frame, child))
      && (Link(last, id, child) ==> UnderForeignBy(stands, nodes, frame, child))
  }

  /** By the last node with each id, excluded is exactly what foreign nodes lead to if and only if children agree. */
  lemma ExcludedIsReachable(nodes: seq<AxNode>, frame: string)
    ensures (forall id :: id in Excluded(nodes, frame) <==> UnderForeign(nodes, frame, id))
       <==> ChildrenAgree(ById(nodes), StandsFor(nodes, frame), nodes, frame)
  {
    var last, stands, excluded := ById(nodes), StandsFor(nodes, frame), Excluded(nodes, frame);
    ListExplored(nodes, frame);
    if forall id :: id in excluded <==> UnderForeign(nodes, frame, id) {
      ReachableAgrees(last, stands, nodes, frame, excluded);
    }
    if ChildrenAgree(last, stands, nodes, frame) {
      forall id
        ensures id in excluded <==> UnderForeign(nodes, frame, id)
      {
        AgreeingIsReachable(last, stands, nodes, frame, excluded, id);
      }
    }
  }

  lemma ReachableAgrees(last: Index, stands: Index, nodes: seq<AxNode>, frame: string, excluded: set<string>)
    requires Keyed(last) && Explored(last, stands, nodes, frame, excluded)
    requires forall id :: id in excluded <==> UnderForeignBy(last, nodes, frame, id)
    ensures ChildrenAgree(last, stands, nodes, frame)
  {
    forall id, child | id in last && id in stands && stands[id].childIds != last[id].childIds
      ensures Link(stands, id, child) ==> UnderForeignBy(last, nodes, frame, child)
      ensures Link(last, id, child) ==> UnderForeignBy(stands, nodes, frame, child)
    {
      assert id in excluded;
      if Link(last, id, child) { UnderStep(last, nodes, frame, id, child); }
      ExploredIsExact(last, stands, nodes, frame, excluded, child);
    }
  }

  lemma UnderStep(index: Index, nodes: seq<AxNode>, frame: string, id: string, child: string)
    requires UnderForeignBy(index, nodes, frame, id) && Link(index, id, child)
    ensures UnderForeignBy(index, nodes, frame, child)
  {
    var source :| source in nodes && Foreign(source, frame) && Reaches(index, source.nodeId, id);
    ReachesStep(index, source.nodeId, id, child);
  }

  lemma AgreeingIsReachable(
      last: Index, stands: Index, nodes: seq<AxNode>, frame: string, excluded: set<string>, id: string)
    requires Knows(last, nodes) && Explored(last, stands, nodes, frame, excluded)
    requires ChildrenAgree(last, stands, nodes, frame)
    ensures id in excluded <==> UnderForeignBy(last, nodes, frame, id)
  {
    if UnderForeignBy(last, nodes, frame, id) {
      ExcludedIsClosed(last, stands, nodes, frame, excluded);
      UnderForeignIsHeld(last, nodes, frame, excluded, id);
    }
    if id in excluded {
      var under := set a | a in last && UnderForeignBy(last, nodes, frame, a);
      UnderIsClosed(last, stands, nodes, frame, under);
      UnderForeignIsHeld(stands, nodes, frame, under, id);
    }
  }

  lemma ExcludedIsClosed(last: Index, stands: Index, nodes: seq<AxNode>, frame: string, excluded: set<string>)
    requires Explored(last, stands, nodes, frame, excluded) && ChildrenAgree(last, stands, nodes, frame)
    ensures Closed(last, excluded, {})
  {
    forall a, child | a in excluded && Link(last, a, child)
      ensures child in excluded
    {
      if stands[a].childIds == last[a].childIds { assert Link(stands, a, child); }
      ExploredIsExact(last, stands, nodes, frame, excluded, child);
    }
  }

  lemma UnderIsClosed(last: Index, stands: Index, nodes: seq<AxNode>, frame: string, under: set<string>)
    requires Knows(last, nodes) && last.Keys == stands.Keys && ChildrenAgree(last, stands, nodes, frame)
    requires under == set a | a in last && UnderForeignBy(last, nodes, frame, a)
    ensures Closed(stands, under, {})
    ensures forall node :: node in nodes && Foreign(node, frame) ==> node.nodeId in under
  {
    forall a, child | a in under && Link(stands, a, child)
      ensures child in under
    {
      if stands[a].childIds == last[a].childIds { UnderStep(last, nodes, frame, a, child); }
    }
    forall node | node in nodes && Foreign(node, frame)
      ensures node.nodeId in under
    {
      assert Walk(last, [node.nodeId]);
      assert Reaches(last, node.nodeId, node.nodeId);
    }
  }

  lemma {:induction false} StandsChildren(last: Index, nodes: seq<AxNode>, frame: string)
    requires Knows(last, nodes)
    requires forall a :: a in nodes && Foreign(a, frame) ==> last[a.nodeId].childIds == a.childIds
    ensures var stands := Stands(last, nodes, frame);
            stands.Keys == last.Keys && forall id :: id in last ==> stands[id].childIds == last[id].childIds
  {
    if nodes != [] {
      var earlier, node := nodes[..|nodes| - 1], nodes[|nodes| - 1];
      StandsChildren(last, earlier, frame);
      assert node in nodes;
    }
  }

  /** On every graph, cyclic or not, whose foreign nodes have the children of the last node with their id. */
  lemma GraphsAgree(nodes: seq<AxNode>, frame: string, id: string)
    requires ForeignAgree(nodes, frame)
    ensures id in Excluded(nodes, frame) <==> UnderForeign(nodes, frame, id)
  {
    StandsChildren(ById(nodes), nodes, frame);
    ListExplored(nodes, frame);
    AgreeingIsReachable(ById(nodes), StandsFor(nodes, frame), nodes, frame, Excluded(nodes, frame), id);
  }

  /** Two nodes with one id and different children: the second one's child escapes the exclusion. */
  lemma DisagreeingIdsEscape()
    ensures var nodes := [AxNode("2", None, [], Some(7)),
                          AxNode("1", Some("F"), [], None), AxNode("1", Some("F"), ["2"], None)];
            && UnderForeign(nodes, "M", "2") && "2" !in Excluded(nodes, "M")
  {
    var plain, empty := AxNode("2", None, [], Some(7)), AxNode("1", Some("F"), [], None);
    var full := AxNode("1", Some("F"), ["2"], None);
    var nodes := [plain, empty, full];
    var byId := map["2" := plain, "1" := full];
    LastOfEqualIds(plain, empty, full);
    var path := ["1", "2"];
    assert path[..1] == ["1"] && Link(byId, "1", "2") && Walk(byId, path);
    assert Reaches(byId, full.nodeId, "2");
    assert full in nodes && Foreign(full, "M");
    assert Exclude(byId, empty, {}) == {"1"};
    EscapingWalk(byId, plain, empty, full);
  }

  lemma LastOfEqualIds(a: AxNode, b: AxNode, c: AxNode)
    requires b.nodeId == c.nodeId != a.nodeId
    ensures ById([a, b, c]) == map[a.nodeId := a, c.nodeId := c]
  {
    var nodes := [a, b, c];
    assert nodes[..2] == [a, b] && nodes[..2][..1] == [a] && nodes[..2][..1][..0] == [];
  }

  /** The first of two foreign nodes with one id is excluded with its children, the second not at all. */
  lemma EscapingWalk(byId: map<string, AxNode>, plain: AxNode, empty: AxNode, full: AxNode)
    requires Keyed(byId) && plain.nodeId in byId && empty.nodeId in byId && full.nodeId in byId
    requires !Foreign(plain, "M") && Foreign(empty, "M") && Foreign(full, "M")
               && Exclude(byId, empty, {}) == {full.nodeId}
    ensures ExcludeForeign(byId, [plain, empty, full], "M", {}) == {full.nodeId}
  {
    var nodes := [plain, empty, full];
    assert forall node :: node in nodes ==> node.nodeId in byId;
    assert nodes[1..] == [empty, full] && nodes[1..][1..] == [full] && nodes[1..][1..][1..] == [];
    assert ExcludeForeign(byId, nodes, "M", {}) == ExcludeForeign(byId, nodes[1..], "M", {});
    assert ExcludeForeign(byId, nodes[1..], "M", {}) == ExcludeForeign(byId, nodes[1..][1..], "M", {full.nodeId});
    assert ExcludeForeign(byId, nodes[1..][1..], "M", {full.nodeId}) == ExcludeForeign(byId, [], "M", {full.nodeId});
  }

  // ----------------------------------------------------------------------- reference names

  function RefName(session: string, tab: nat, generation: nat, index: nat): string {
    "r:" + session + ":" + Numeral(tab) + ":" + Numeral(generation) + ":" + Numeral(index)
  }

  lemma LastColon(a: string, b: string)
    requires ':' !in b
    ensures var w := a + ":" + b; w[|a|] == ':' && forall i :: |a| < i < |w| ==> w[i] != ':'
  {
    var w := a + ":" + b;
    assert forall i :: |a| < i < |w| ==> w[i] == b[i - |a| - 1];
  }

  lemma SplitLastColon(a: string, b: string, c: string, d: string)
    requires a + ":" + b == c + ":" + d && ':' !in b && ':' !in d
    ensures a == c && b == d
  {
    var whole, other := a + ":" + b, c + ":" + d;
    LastColon(a, b);
    LastColon(c, d);
    assert |a| == |c|;
    assert whole[..|a|] == a && other[..|c|] == c;
    assert whole[|a| + 1..] == b && other[|c| + 1..] == d;
  }

  lemma NumeralHasNoColon(n: nat)
    ensures ':' !in Numeral(n)
  {
    NumeralIsCanonical(n);
    assert forall i :: 0 <= i < |Numeral(n)| ==> IsDigit(Numeral(n)[i]);
  }

  /** Two names are equal only when session, tab, generation and index all are. */
  lemma RefNameInjective(s: string, t: nat, g: nat, i: nat, s': string, t': nat, g': nat, i': nat)
    requires RefName(s, t, g, i) == RefName(s', t', g', i')
    ensures s == s' && t == t' && g == g' && i == i'
  {
    NumeralHasNoColon(t); NumeralHasNoColon(t'); NumeralHasNoColon(g); NumeralHasNoColon(g');
    NumeralHasNoColon(i); NumeralHasNoColon(i');
    var p0, p0' := "r:" + s, "r:" + s';
    var p1, p1' := p0 + ":" + Numeral(t), p0' + ":" + Numeral(t');
    var p2, p2' := p1 + ":" + Numeral(g), p1' + ":" + Numeral(g');
    SplitLastColon(p2, Numeral(i), p2', Numeral(i'));
    SplitLastColon(p1, Numeral(g), p1', Numeral(g'));
    SplitLastColon(p0, Numeral(t), p0', Numeral(t'));
    assert p0[2..] == s && p0'[2..] == s';
    NumeralInjective(t, t'); NumeralInjective(g, g'); NumeralInjective(i, i');
  }

  // ---------------------------------------------------------------------- minting a snapshot

  function Kept(nodes: seq<AxNode>, excluded: set<string>): (r: seq<AxNode>)
    ensures forall node :: node in r <==> node in nodes && node.nodeId !in excluded
  {
    if nodes == [] then []
    else (if nodes[0].nodeId in excluded then [] else [nodes[0]]) + Kept(nodes[1..], excluded)
  }

  predicate Addressable(node: AxNode, frame: string) {
    node.backendId.Some? && !Foreign(node, frame)
  }

  /** Where one snapshot mints its names. */
  datatype Origin = Origin(session: string, tab: nat, generation: nat, document: Stamp)

  function NameAt(o: Origin, index: nat): string { RefName(o.session, o.tab, o.generation, index) }

  /** refs after the first n kept nodes. */
  function Refs(o: Origin, kept: seq<AxNode>, n: nat): map<string, SavedRef>
    requires n <= |kept|
  {
    if n == 0 then map[]
    else if Addressable(kept[n - 1], o.document.frameId) then
      Refs(o, kept, n - 1)[NameAt(o, n - 1) := SavedRef(kept[n - 1].backendId.value, o.generation, o.document)]
    else Refs(o, kept, n - 1)
  }

  /** axRefs after the first n kept nodes: from Accessibility ids to names. */
  function AxRefs(o: Origin, kept: seq<AxNode>, n: nat): map<string, string>
    requires n <= |kept|
  {
    if n == 0 then map[]
    else if Addressable(kept[n - 1], o.document.frameId) then
      AxRefs(o, kept, n - 1)[kept[n - 1].nodeId := NameAt(o, n - 1)]
    else AxRefs(o, kept, n - 1)
  }

  function Mint(o: Origin, nodes: seq<AxNode>): map<string, SavedRef> {
    var kept := Kept(nodes, Excluded(nodes, o.document.frameId));
    Refs(o, kept, |kept|)
  }

  function ChildRefs(names: map<string, string>, ids: seq<string>): seq<string> {
    if ids == [] then []
    else (if ids[0] in names then [names[ids[0]]] else []) + ChildRefs(names, ids[1..])
  }

  /** A name is minted for exactly the addressable kept nodes, each under its own index, none overwritten. */
  lemma {:induction false} RefsExact(o: Origin, kept: seq<AxNode>, n: nat)
    requires n <= |kept|
    ensures forall i :: 0 <= i < n ==>
              (Addressable(kept[i], o.document.frameId) <==> NameAt(o, i) in Refs(o, kept, n))
    ensures forall i :: 0 <= i < n && Addressable(kept[i], o.document.frameId) ==>
              Refs(o, kept, n)[NameAt(o, i)] == SavedRef(kept[i].backendId.value, o.generation, o.document)
    ensures forall r :: r in Refs(o, kept, n) ==>
              exists i :: 0 <= i < n && Addressable(kept[i], o.document.frameId) && r == NameAt(o, i)
  {
    if n > 0 {
      RefsExact(o, kept, n - 1);
      forall i | 0 <= i < n && NameAt(o, i) == NameAt(o, n - 1)
        ensures i == n - 1
      {
        RefNameInjective(o.session, o.tab, o.generation, i, o.session, o.tab, o.generation, n - 1);
      }
      assert NameAt(o, n - 1) !in Refs(o, kept, n - 1);
    }
  }

  lemma {:induction false} AxRefsName(o: Origin, kept: seq<AxNode>, n: nat)
    requires n <= |kept|
    ensures forall id :: id in AxRefs(o, kept, n) ==>
              exists i :: 0 <= i < n && kept[i].nodeId == id && Addressable(kept[i], o.document.frameId)
                          && AxRefs(o, kept, n)[id] == NameAt(o, i)
    ensures forall i :: 0 <= i < n && Addressable(kept[i], o.document.frameId) ==> kept[i].nodeId in AxRefs(o, kept, n)
  {
    if n > 0 {
      AxRefsName(o, kept, n - 1);
      var before, after := AxRefs(o, kept, n - 1), AxRefs(o, kept, n);
      forall id | id in after
        ensures exists i :: 0 <= i < n && kept[i].nodeId == id && Addressable(kept[i], o.document.frameId)
                  && after[id] == NameAt(o, i)
      {
        if Addressable(kept[n - 1], o.document.frameId) && id == kept[n - 1].nodeId {
          assert after[id] == NameAt(o, n - 1);
        } else {
          assert id in before && after[id] == before[id];
          var i :| 0 <= i < n - 1 && kept[i].nodeId == id && Addressable(kept[i], o.document.frameId)
              && before[id] == NameAt(o, i);
        }
      }
    }
  }

  lemma {:induction false} ChildRefsSource(names: map<string, string>, ids: seq<string>)
    ensures forall r :: r in ChildRefs(names, ids) ==> exists id :: id in ids && id in names && r == names[id]
    ensures forall id :: id in ids && id in names ==> names[id] in ChildRefs(names, ids)
  {
    if ids != [] {
      ChildRefsSource(names, ids[1..]);
      forall r | r in ChildRefs(names, ids)
        ensures exists id :: id in ids && id in names && r == names[id]
      {
        if r in ChildRefs(names, ids[1..]) {
          var id :| id in ids[1..] && id in names && r == names[id];
          assert id in ids;
        }
      }
      assert forall id :: id in ids ==> id == ids[0] || id in ids[1..];
    }
  }

  /** A node of the list, not foreign, that no foreign node leads to. */
  ghost predicate Shown(nodes: seq<AxNode>, frame: string, node: AxNode) {
    && node in nodes && !Foreign(node, frame)
    && !UnderForeignBy(StandsFor(nodes, frame), nodes, frame, node.nodeId)
    && (ChildrenAgree(ById(nodes), StandsFor(nodes, frame), nodes, frame) ==>
          !UnderForeign(nodes, frame, node.nodeId))
  }

  lemma KeptIsShown(nodes: seq<AxNode>, frame: string, node: AxNode)
    requires node in nodes && node.nodeId !in Excluded(nodes, frame) && !Foreign(node, frame)
    ensures Shown(nodes, frame, node)
  {
    ExcludedExactly(nodes, frame, node.nodeId);
    ExcludedIsReachable(nodes, frame);
  }

  lemma ForeignHidden(nodes: seq<AxNode>, frame: string)
    ensures forall node :: node in nodes && Foreign(node, frame) ==> node.nodeId in Excluded(nodes, frame)
  {
    ListExplored(nodes, frame);
  }

  /**
   * What a snapshot publishes: no reference leads to a hidden or foreign node, and every child
   * reference of a shown node is one of the references minted by this same snapshot.
   */
  lemma SnapshotRefsAreShown(o: Origin, nodes: seq<AxNode>)
    ensures var frame := o.document.frameId;
            var kept := Kept(nodes, Excluded(nodes, frame));
            && (forall node :: node in nodes && Foreign(node, frame) ==> node !in kept)
            && (forall r :: r in Mint(o, nodes) ==>
                  exists i :: 0 <= i < |kept| && r == NameAt(o, i) && Shown(nodes, frame, kept[i])
                              && kept[i].backendId == Some(Mint(o, nodes)[r].backendId))
            && (forall node, r :: node in kept && r in ChildRefs(AxRefs(o, kept, |kept|), node.childIds) ==>
                  r in Mint(o, nodes))
  {
    var frame := o.document.frameId;
    var kept := Kept(nodes, Excluded(nodes, frame));
    RefsExact(o, kept, |kept|);
    AxRefsName(o, kept, |kept|);
    ForeignHidden(nodes, frame);
    forall r | r in Mint(o, nodes)
      ensures exists i :: 0 <= i < |kept| && r == NameAt(o, i) && Shown(nodes, frame, kept[i])
                          && kept[i].backendId == Some(Mint(o, nodes)[r].backendId)
    {
      var i :| 0 <= i < |kept| && Addressable(kept[i], frame) && r == NameAt(o, i);
      assert kept[i] in kept;
      KeptIsShown(nodes, frame, kept[i]);
    }
    forall node, r | node in kept && r in ChildRefs(AxRefs(o, kept, |kept|), node.childIds)
      ensures r in Mint(o, nodes)
    {
      ChildRefsSource(AxRefs(o, kept, |kept|), node.childIds);
      var id :| id in node.childIds && id in AxRefs(o, kept, |kept|) && r == AxRefs(o, kept, |kept|)[id];
    }
  }
}
