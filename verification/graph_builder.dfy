/**
 * The program linkage graph (core/linkage_graph/graph_builder.py).
 *
 * Nodes and edges live in two dictionaries.  Two indices are kept beside them:
 * for each node, the ids of its incident edges (a self-loop is listed twice);
 * for each linkage type, the ids of its edges.  The invariant `GraphInv` says
 * the indices list exactly the edges of the graph, with the right
 * multiplicity, that every edge joins two nodes of the graph, and that no two
 * edges share source, target and type.
 */
module LinkageGraph {
  import opened Common
  import opened LinkageEdge
  import opened TraversalStrategy

  type Nodes = map<string, UnitNode>
  type Edges = map<string, GraphEdge>
  type Adjacency = map<string, seq<string>>
  type TypeIndex = map<LinkageType, seq<string>>

  /** How many times edge `eid` should be listed for node `n`: once per endpoint that is `n`. */
  function Incidence(edges: Edges, n: string, eid: string): nat
  {
    if eid !in edges then 0
    else (if edges[eid].sourceNodeId == n then 1 else 0) + (if edges[eid].targetNodeId == n then 1 else 0)
  }

  /** How many times `eid` is listed for node `n`. */
  function AdjCount(adj: Adjacency, n: string, eid: string): nat
  {
    if n in adj then Count(adj[n], eid) else 0
  }

  /** How many times `eid` should be listed for type `t`. */
  function TypeIncidence(edges: Edges, t: LinkageType, eid: string): nat
  {
    if eid in edges && edges[eid].linkageType == t then 1 else 0
  }

  /** How many times `eid` is listed for type `t`. */
  function TypeCount(index: TypeIndex, t: LinkageType, eid: string): nat
  {
    Count(GetOr(index, t, []), eid)
  }

  function Listed(s: seq<string>): set<string>
  {
    set x | x in s
  }

  /** The same source, target and type: the duplicate test of `add_edge`. */
  predicate SameTriple(a: GraphEdge, b: GraphEdge)
  {
    a.sourceNodeId == b.sourceNodeId && a.targetNodeId == b.targetNodeId && a.linkageType == b.linkageType
  }

  ghost predicate WellFormedEdge(nodes: Nodes, id: string, e: GraphEdge)
  {
    e.edgeId == id && e.sourceNodeId in nodes && e.targetNodeId in nodes
  }

  ghost predicate EdgesWellFormed(nodes: Nodes, edges: Edges)
  {
    forall id {:trigger WellFormedEdge(nodes, id, edges[id])} :: id in edges ==> WellFormedEdge(nodes, id, edges[id])
  }

  ghost predicate AdjacencyExact(adj: Adjacency, edges: Edges)
  {
    forall n, eid :: n in adj ==> AdjCount(adj, n, eid) == Incidence(edges, n, eid)
  }

  ghost predicate TypeIndexExact(index: TypeIndex, edges: Edges)
  {
    forall t, eid :: TypeCount(index, t, eid) == TypeIncidence(edges, t, eid)
  }

  ghost predicate NoDuplicateTriples(edges: Edges)
  {
    forall a, b {:trigger SameTriple(edges[a], edges[b])} :: a in edges && b in edges && SameTriple(edges[a], edges[b]) ==> a == b
  }

  /** The invariant of the graph's five dictionaries. */
  ghost predicate GraphInv(nodes: Nodes, order: seq<string>, edges: Edges, adj: Adjacency, index: TypeIndex)
  {
    adj.Keys == nodes.Keys
    && NoDuplicates(order) && Listed(order) == nodes.Keys
    && EdgesWellFormed(nodes, edges)
    && AdjacencyExact(adj, edges)
    && TypeIndexExact(index, edges)
    && NoDuplicateTriples(edges)
  }

  /** `add_edge`'s acceptance test. */
  predicate Accepts(nodes: Nodes, edges: Edges, e: GraphEdge)
  {
    e.sourceNodeId in nodes && e.targetNodeId in nodes && e.edgeId !in edges
    && !(exists id :: id in edges && SameTriple(edges[id], e))
  }

  /** The adjacency after `add_edge` appends the id to the source's, then the target's list. */
  function AttachEdge(adj: Adjacency, e: GraphEdge): Adjacency
  {
    var a1 := adj[e.sourceNodeId := GetOr(adj, e.sourceNodeId, []) + [e.edgeId]];
    a1[e.targetNodeId := GetOr(a1, e.targetNodeId, []) + [e.edgeId]]
  }

  /** The type index after `add_edge` appends the id to its type's list, creating it if absent. */
  function IndexType(index: TypeIndex, e: GraphEdge): TypeIndex
  {
    index[e.linkageType := GetOr(index, e.linkageType, []) + [e.edgeId]]
  }

  /** The adjacency after `remove_edge` removes the id from the source's, then the target's list. */
  function DetachEdge(adj: Adjacency, e: GraphEdge): Adjacency
  {
    var a1 := adj[e.sourceNodeId := RemoveFirst(GetOr(adj, e.sourceNodeId, []), e.edgeId)];
    a1[e.targetNodeId := RemoveFirst(GetOr(a1, e.targetNodeId, []), e.edgeId)]
  }

  /** The type index after `remove_edge` removes the id from its type's list. */
  function UnindexType(index: TypeIndex, e: GraphEdge): TypeIndex
  {
    index[e.linkageType := RemoveFirst(GetOr(index, e.linkageType, []), e.edgeId)]
  }

  /** A node's list holds exactly the edges that touch it. */
  lemma ListedEdges(adj: Adjacency, edges: Edges, n: string)
    requires AdjacencyExact(adj, edges) && n in adj
    ensures forall eid :: eid in adj[n] ==> eid in edges && edges[eid].HasNode(n)
    ensures forall eid :: eid in edges && edges[eid].HasNode(n) ==> eid in adj[n]
  {
    forall eid
      ensures eid in adj[n] <==> eid in edges && edges[eid].HasNode(n)
    {
      assert AdjCount(adj, n, eid) == Incidence(edges, n, eid);
    }
  }

  /** A node's degree after attaching an edge: one more per endpoint it is, so a self-loop adds two. */
  lemma AttachEdgeDegree(adj: Adjacency, e: GraphEdge, n: string)
    requires e.sourceNodeId in adj && e.targetNodeId in adj && n in adj
    ensures n in AttachEdge(adj, e)
    ensures |AttachEdge(adj, e)[n]| == |adj[n]|
              + (if e.sourceNodeId == n then 1 else 0) + (if e.targetNodeId == n then 1 else 0)
  {
  }

  lemma AttachAt(adj: Adjacency, e: GraphEdge, n: string, eid: string)
    requires e.sourceNodeId in adj && e.targetNodeId in adj
    ensures AdjCount(AttachEdge(adj, e), n, eid) == AdjCount(adj, n, eid)
              + (if eid == e.edgeId then (if e.sourceNodeId == n then 1 else 0) + (if e.targetNodeId == n then 1 else 0) else 0)
  {
    var a1 := adj[e.sourceNodeId := adj[e.sourceNodeId] + [e.edgeId]];
    CountAppend(adj[e.sourceNodeId], e.edgeId, eid);
    CountAppend(a1[e.targetNodeId], e.edgeId, eid);
  }

  lemma DetachAt(adj: Adjacency, e: GraphEdge, n: string, eid: string)
    requires e.sourceNodeId in adj && e.targetNodeId in adj
    requires AdjCount(adj, e.sourceNodeId, e.edgeId) >= 1
    requires AdjCount(adj, e.targetNodeId, e.edgeId) >= (if e.sourceNodeId == e.targetNodeId then 2 else 1)
    ensures AdjCount(DetachEdge(adj, e), n, eid) == AdjCount(adj, n, eid)
              - (if eid == e.edgeId then (if e.sourceNodeId == n then 1 else 0) + (if e.targetNodeId == n then 1 else 0) else 0)
  {
    var a1 := adj[e.sourceNodeId := RemoveFirst(adj[e.sourceNodeId], e.edgeId)];
    RemoveFirstCount(adj[e.sourceNodeId], e.edgeId, eid);
    RemoveFirstCount(adj[e.sourceNodeId], e.edgeId, e.edgeId);
    RemoveFirstCount(a1[e.targetNodeId], e.edgeId, eid);
    assert Count(a1[e.targetNodeId], e.edgeId) >= 1;
  }

  lemma IndexAt(index: TypeIndex, e: GraphEdge, t: LinkageType, eid: string)
    ensures TypeCount(IndexType(index, e), t, eid) == TypeCount(index, t, eid) + (if t == e.linkageType && eid == e.edgeId then 1 else 0)
  {
    CountAppend(GetOr(index, e.linkageType, []), e.edgeId, eid);
  }

  lemma UnindexAt(index: TypeIndex, e: GraphEdge, t: LinkageType, eid: string)
    requires TypeCount(index, e.linkageType, e.edgeId) >= 1
    ensures TypeCount(UnindexType(index, e), t, eid) == TypeCount(index, t, eid) - (if t == e.linkageType && eid == e.edgeId then 1 else 0)
  {
    RemoveFirstCount(GetOr(index, e.linkageType, []), e.edgeId, eid);
  }

  lemma AddNodeOrder(nodes: Nodes, order: seq<string>, id: string, node: UnitNode)
    requires NoDuplicates(order) && Listed(order) == nodes.Keys && id !in nodes
    ensures NoDuplicates(order + [id]) && Listed(order + [id]) == nodes[id := node].Keys
  {
    assert Listed(order + [id]) == Listed(order) + {id};
    forall i, j | 0 <= i < j < |order + [id]|
      ensures (order + [id])[i] != (order + [id])[j]
    {
      if j == |order| {
        assert (order + [id])[i] == order[i] && order[i] in Listed(order);
      }
    }
  }

  lemma AddNodeAdjacency(nodes: Nodes, edges: Edges, adj: Adjacency, id: string)
    requires EdgesWellFormed(nodes, edges) && AdjacencyExact(adj, edges) && id !in nodes
    ensures AdjacencyExact(adj[id := []], edges)
  {
    forall n, eid | n in adj[id := []]
      ensures AdjCount(adj[id := []], n, eid) == Incidence(edges, n, eid)
    {
      if n != id {
        assert AdjCount(adj, n, eid) == Incidence(edges, n, eid);
      } else if eid in edges {
        assert WellFormedEdge(nodes, eid, edges[eid]);
      }
    }
  }

  lemma AddNodeWellFormed(nodes: Nodes, edges: Edges, id: string, node: UnitNode)
    requires EdgesWellFormed(nodes, edges)
    ensures EdgesWellFormed(nodes[id := node], edges)
  {
    forall x | x in edges
      ensures WellFormedEdge(nodes[id := node], x, edges[x])
    {
      assert WellFormedEdge(nodes, x, edges[x]);
    }
  }

  /** `add_node` keeps the invariant. */
  lemma AddNodeInv(nodes: Nodes, order: seq<string>, edges: Edges, adj: Adjacency, index: TypeIndex, id: string, node: UnitNode)
    requires GraphInv(nodes, order, edges, adj, index) && id !in nodes
    ensures GraphInv(nodes[id := node], order + [id], edges, adj[id := []], index)
  {
    AddNodeOrder(nodes, order, id, node);
    AddNodeAdjacency(nodes, edges, adj, id);
    AddNodeWellFormed(nodes, edges, id, node);
  }

  lemma AddEdgeWellFormed(nodes: Nodes, edges: Edges, e: GraphEdge)
    requires EdgesWellFormed(nodes, edges) && e.sourceNodeId in nodes && e.targetNodeId in nodes
    ensures EdgesWellFormed(nodes, edges[e.edgeId := e])
  {
    var edges2 := edges[e.edgeId := e];
    forall x | x in edges2
      ensures WellFormedEdge(nodes, x, edges2[x])
    {
      if x != e.edgeId {
        assert WellFormedEdge(nodes, x, edges[x]);
      }
    }
  }

  lemma AddEdgeAdjacency(adj: Adjacency, edges: Edges, e: GraphEdge)
    requires AdjacencyExact(adj, edges) && e.edgeId !in edges
    requires e.sourceNodeId in adj && e.targetNodeId in adj
    ensures AdjacencyExact(AttachEdge(adj, e), edges[e.edgeId := e])
  {
    forall n, eid | n in AttachEdge(adj, e)
      ensures AdjCount(AttachEdge(adj, e), n, eid) == Incidence(edges[e.edgeId := e], n, eid)
    {
      assert AdjCount(adj, n, eid) == Incidence(edges, n, eid);
      AttachAt(adj, e, n, eid);
    }
  }

  lemma AddEdgeTypeIndex(index: TypeIndex, edges: Edges, e: GraphEdge)
    requires TypeIndexExact(index, edges) && e.edgeId !in edges
    ensures TypeIndexExact(IndexType(index, e), edges[e.edgeId := e])
  {
    forall t, eid
      ensures TypeCount(IndexType(index, e), t, eid) == TypeIncidence(edges[e.edgeId := e], t, eid)
    {
      assert TypeCount(index, t, eid) == TypeIncidence(edges, t, eid);
      IndexAt(index, e, t, eid);
    }
  }

  lemma AddEdgeTriples(edges: Edges, e: GraphEdge)
    requires NoDuplicateTriples(edges) && e.edgeId !in edges
    requires !(exists id :: id in edges && SameTriple(edges[id], e))
    ensures NoDuplicateTriples(edges[e.edgeId := e])
  {
    var edges2 := edges[e.edgeId := e];
    forall a, b | a in edges2 && b in edges2 && SameTriple(edges2[a], edges2[b])
      ensures a == b
    {
      if a != e.edgeId && b != e.edgeId {
        assert SameTriple(edges[a], edges[b]);
      }
    }
  }

  /** Accepting an edge keeps the invariant. */
  lemma AddEdgeInv(nodes: Nodes, order: seq<string>, edges: Edges, adj: Adjacency, index: TypeIndex, e: GraphEdge)
    requires GraphInv(nodes, order, edges, adj, index) && Accepts(nodes, edges, e)
    ensures GraphInv(nodes, order, edges[e.edgeId := e], AttachEdge(adj, e), IndexType(index, e))
  {
    AddEdgeWellFormed(nodes, edges, e);
    AddEdgeAdjacency(adj, edges, e);
    AddEdgeTypeIndex(index, edges, e);
    AddEdgeTriples(edges, e);
  }

  lemma RemoveEdgeWellFormed(nodes: Nodes, edges: Edges, id: string)
    requires EdgesWellFormed(nodes, edges)
    ensures EdgesWellFormed(nodes, edges - {id})
  {
    forall x | x in edges - {id}
      ensures WellFormedEdge(nodes, x, (edges - {id})[x])
    {
      assert WellFormedEdge(nodes, x, edges[x]);
    }
  }

  lemma RemoveEdgeAdjacency(adj: Adjacency, edges: Edges, id: string)
    requires AdjacencyExact(adj, edges) && id in edges && edges[id].edgeId == id
    requires edges[id].sourceNodeId in adj && edges[id].targetNodeId in adj
    ensures AdjacencyExact(DetachEdge(adj, edges[id]), edges - {id})
  {
    var e := edges[id];
    assert AdjCount(adj, e.sourceNodeId, id) == Incidence(edges, e.sourceNodeId, id);
    assert AdjCount(adj, e.targetNodeId, id) == Incidence(edges, e.targetNodeId, id);
    forall n, eid | n in DetachEdge(adj, e)
      ensures AdjCount(DetachEdge(adj, e), n, eid) == Incidence(edges - {id}, n, eid)
    {
      assert AdjCount(adj, n, eid) == Incidence(edges, n, eid);
      DetachAt(adj, e, n, eid);
    }
  }

  lemma RemoveEdgeTypeIndex(index: TypeIndex, edges: Edges, id: string)
    requires TypeIndexExact(index, edges) && id in edges && edges[id].edgeId == id
    ensures TypeIndexExact(UnindexType(index, edges[id]), edges - {id})
  {
    var e := edges[id];
    assert TypeCount(index, e.linkageType, id) == TypeIncidence(edges, e.linkageType, id);
    forall t, eid
      ensures TypeCount(UnindexType(index, e), t, eid) == TypeIncidence(edges - {id}, t, eid)
    {
      assert TypeCount(index, t, eid) == TypeIncidence(edges, t, eid);
      UnindexAt(index, e, t, eid);
    }
  }

  lemma RemoveEdgeTriples(edges: Edges, id: string)
    requires NoDuplicateTriples(edges)
    ensures NoDuplicateTriples(edges - {id})
  {
    forall a, b | a in edges - {id} && b in edges - {id} && SameTriple((edges - {id})[a], (edges - {id})[b])
      ensures a == b
    {
      assert SameTriple(edges[a], edges[b]);
    }
  }

  /**
   * Removing an edge of the graph keeps the invariant, and each `list.remove`
   * of `remove_edge` finds the id it removes.
   */
  lemma RemoveEdgeInv(nodes: Nodes, order: seq<string>, edges: Edges, adj: Adjacency, index: TypeIndex, id: string)
    requires GraphInv(nodes, order, edges, adj, index) && id in edges
    ensures var e := edges[id];
            e.edgeId == id
            && AdjCount(adj, e.sourceNodeId, id) >= 1
            && AdjCount(adj, e.targetNodeId, id) >= (if e.sourceNodeId == e.targetNodeId then 2 else 1)
            && TypeCount(index, e.linkageType, id) == 1
            && GraphInv(nodes, order, edges - {id}, DetachEdge(adj, e), UnindexType(index, e))
  {
    var e := edges[id];
    assert WellFormedEdge(nodes, id, e);
    assert AdjCount(adj, e.sourceNodeId, id) == Incidence(edges, e.sourceNodeId, id);
    assert AdjCount(adj, e.targetNodeId, id) == Incidence(edges, e.targetNodeId, id);
    assert TypeCount(index, e.linkageType, id) == TypeIncidence(edges, e.linkageType, id);
    RemoveEdgeWellFormed(nodes, edges, id);
    RemoveEdgeAdjacency(adj, edges, id);
    RemoveEdgeTypeIndex(index, edges, id);
    RemoveEdgeTriples(edges, id);
  }

  lemma DropNodeWellFormed(nodes: Nodes, edges: Edges, n: string)
    requires EdgesWellFormed(nodes, edges)
    requires forall id :: id in edges ==> !edges[id].HasNode(n)
    ensures EdgesWellFormed(nodes - {n}, edges)
  {
    forall x | x in edges
      ensures WellFormedEdge(nodes - {n}, x, edges[x])
    {
      assert WellFormedEdge(nodes, x, edges[x]);
    }
  }

  lemma DropNodeAdjacency(adj: Adjacency, edges: Edges, n: string)
    requires AdjacencyExact(adj, edges)
    ensures AdjacencyExact(adj - {n}, edges)
  {
    forall m, eid | m in adj - {n}
      ensures AdjCount(adj - {n}, m, eid) == Incidence(edges, m, eid)
    {
      assert AdjCount(adj, m, eid) == Incidence(edges, m, eid);
    }
  }

  /** Dropping a node that no edge touches keeps the invariant. */
  lemma DropNodeInv(nodes: Nodes, order: seq<string>, edges: Edges, adj: Adjacency, index: TypeIndex, n: string)
    requires GraphInv(nodes, order, edges, adj, index) && n in nodes
    requires forall id :: id in edges ==> !edges[id].HasNode(n)
    ensures n in order
    ensures GraphInv(nodes - {n}, RemoveFirst(order, n), edges, adj - {n}, index)
  {
    assert n in Listed(order);
    NoDuplicatesRemoveFirst(order, n);
    assert Listed(RemoveFirst(order, n)) == nodes.Keys - {n};
    DropNodeWellFormed(nodes, edges, n);
    DropNodeAdjacency(adj, edges, n);
  }

  lemma {:induction false} NoDuplicatesRemoveFirst(s: seq<string>, x: string)
    requires NoDuplicates(s) && x in s
    ensures NoDuplicates(RemoveFirst(s, x))
    ensures forall y :: y in RemoveFirst(s, x) <==> y in s && y != x
  {
    assert NoDuplicates(s[1..]) by {
      forall i, j | 0 <= i < j < |s[1..]| ensures s[1..][i] != s[1..][j] {
        assert s[1..][i] == s[i + 1] && s[1..][j] == s[j + 1];
      }
    }
    assert s[0] !in s[1..] by {
      forall k | 0 <= k < |s[1..]| ensures s[1..][k] != s[0] {
        assert s[1..][k] == s[k + 1];
      }
    }
    assert s == [s[0]] + s[1..];
    if s[0] != x {
      NoDuplicatesRemoveFirst(s[1..], x);
      var rest := RemoveFirst(s[1..], x);
      var r := RemoveFirst(s, x);
      assert r == [s[0]] + rest;
      forall i, j | 0 <= i < j < |r| ensures r[i] != r[j] {
        if i == 0 {
          assert r[j] == rest[j - 1] && rest[j - 1] in rest;
        } else {
          assert r[i] == rest[i - 1] && r[j] == rest[j - 1];
        }
      }
    }
  }

  /** Sharing an edge makes two nodes neighbours of each other. */
  lemma NeighborSymmetric(nodes: Nodes, edges: Edges, adj: Adjacency, n: string, eid: string)
    requires AdjacencyExact(adj, edges) && EdgesWellFormed(nodes, edges) && adj.Keys == nodes.Keys
    requires n in adj && eid in adj[n]
    ensures eid in edges && edges[eid].GetOtherNode(n).Some?
    ensures var m := edges[eid].GetOtherNode(n).value;
            m in adj && eid in adj[m] && edges[eid].GetOtherNode(m) == Some(n)
  {
    ListedEdges(adj, edges, n);
    var m := edges[eid].GetOtherNode(n).value;
    assert WellFormedEdge(nodes, eid, edges[eid]);
    ListedEdges(adj, edges, m);
  }

  /** The edges stored under a list of ids. */
  function Lookup(edges: Edges, ids: seq<string>): (r: seq<GraphEdge>)
    requires forall id :: id in ids ==> id in edges
    ensures |r| == |ids| && forall i :: 0 <= i < |ids| ==> r[i] == edges[ids[i]]
  {
    seq(|ids|, i requires 0 <= i < |ids| => edges[ids[i]])
  }

  /** `add_edge` applied to each edge in turn. */
  function AddEach(nodes: map<string, UnitNode>, edges: map<string, GraphEdge>, es: seq<GraphEdge>): map<string, GraphEdge>
  {
    if es == [] then edges
    else
      var m := AddEach(nodes, edges, es[..|es| - 1]);
      var e := es[|es| - 1];
      if Accepts(nodes, m, e) then m[e.edgeId := e] else m
  }

  /** Adding edges one by one keeps every earlier edge and adds only the given ones. */
  lemma {:induction false} AddEachGrows(nodes: map<string, UnitNode>, edges: map<string, GraphEdge>, es: seq<GraphEdge>)
    ensures forall id :: id in edges ==> id in AddEach(nodes, edges, es) && AddEach(nodes, edges, es)[id] == edges[id]
    ensures forall id :: id in AddEach(nodes, edges, es) && id !in edges ==> AddEach(nodes, edges, es)[id] in es
  {
    if es != [] {
      AddEachGrows(nodes, edges, es[..|es| - 1]);
    }
  }

  /** A walk's end: follow each edge from the current node to its other endpoint. */
  function WalkEnd(start: string, path: seq<GraphEdge>): Option<string>
  {
    if path == [] then Some(start)
    else
      var m := WalkEnd(start, path[..|path| - 1]);
      if m.None? then None else path[|path| - 1].GetOtherNode(m.value)
  }

  function NodeListOf(order: seq<string>, nodes: map<string, UnitNode>): (r: NodeList)
    requires forall n :: n in order ==> n in nodes
    ensures Ids(r) == order
  {
    var r := seq(|order|, i requires 0 <= i < |order| => (order[i], nodes[order[i]]));
    assert Ids(r) == order;
    r
  }

  /** Phases up to and including `p`. */
  function PhasesThrough(p: Option<Phase>): set<Phase>
  {
    set q: Phase | p.Some? && q.Value() <= p.value.Value()
  }

  /** Advancing the phase adds exactly the next phase. */
  lemma PhasesThroughNext(p: Option<Phase>)
    requires NextPhase(p).Some?
    ensures PhasesThrough(NextPhase(p)) == PhasesThrough(p) + {NextPhase(p).value}
  {
    var n := NextPhase(p).value;
    forall q: Phase
      ensures q in PhasesThrough(NextPhase(p)) <==> q in PhasesThrough(p) + {n}
    {
      if p.Some? {
        assert n.Value() == p.value.Value() + 1;
        if q.Value() == n.Value() {
          PhaseValueInjective(q, n);
        }
      } else {
        assert n == Phase1Interaction;
        if q.Value() <= 1 {
          PhaseValueInjective(q, n);
        }
      }
    }
  }

  lemma PhaseValueInjective(p: Phase, q: Phase)
    requires p.Value() == q.Value()
    ensures p == q
  {
  }

  /** The loop measure of `execute_full_traversal`: phase calls still to come. */
  function Remaining(p: Option<Phase>, complete: bool): nat
  {
    if complete then 0 else if p.None? then 6 else 6 - p.value.Value()
  }

  /** The phase run before `p`, none before the first. */
  function PrevPhase(p: Phase): (r: Option<Phase>)
    ensures r.None? <==> p == Phase1Interaction
    ensures r.Some? ==> r.value.Value() + 1 == p.Value()
  {
    match p
    case Phase1Interaction => None
    case Phase2Combination => Some(Phase1Interaction)
    case Phase3Association => Some(Phase2Combination)
    case Phase4Dependency => Some(Phase3Association)
    case Phase5Invocation => Some(Phase4Dependency)
  }

  /** Going back from the phase after `c` returns to `c`. */
  lemma PrevOfNext(c: Option<Phase>)
    requires NextPhase(c).Some?
    ensures PrevPhase(NextPhase(c).value) == c
  {
    if c.Some? {
      PhaseValueInjective(PrevPhase(NextPhase(c).value).value, c.value);
    }
  }

  /** The hash tuples of stored edges, by which `set(self.edges.values())` compares. */
  function HashesOf(edges: Edges): set<HashKey>
  {
    set id | id in edges :: edges[id].HashValue()
  }

  /**
   * The stored edges once the recorded phases up to `p` have run: starting
   * from `start`, each phase's edges handed to `add_edge` in turn, phase after
   * phase from the first.
   */
  function AfterPhases(nodes: Nodes, start: Edges, history: map<Phase, seq<GraphEdge>>, p: Option<Phase>): Edges
    decreases if p.None? then 0 else p.value.Value()
  {
    if p.None? then start
    else
      var es := if p.value in history then history[p.value] else [];
      AddEach(nodes, AfterPhases(nodes, start, history, PrevPhase(p.value)), es)
  }

  /** Recording a later phase leaves the fold up to `p` alone. */
  lemma {:induction false} AfterPhasesFrame(nodes: Nodes, start: Edges, history: map<Phase, seq<GraphEdge>>,
                                           n: Phase, es: seq<GraphEdge>, p: Option<Phase>)
    requires p.None? || p.value.Value() < n.Value()
    ensures AfterPhases(nodes, start, history[n := es], p) == AfterPhases(nodes, start, history, p)
    decreases if p.None? then 0 else p.value.Value()
  {
    if p.Some? {
      AfterPhasesFrame(nodes, start, history, n, es, PrevPhase(p.value));
    }
  }

  /**
   * Every recorded phase up to `p` holds what that phase discovered: its
   * output on the node snapshot `items` and on the edges stored when it ran.
   */
  ghost predicate PhasesRecorded(items: NodeList, nodes: Nodes, start: Edges,
                                 history: map<Phase, seq<GraphEdge>>, p: Option<Phase>)
    requires PhasesThrough(p) <= history.Keys
    reads set q, e | q in history && e in history[q] :: e
  {
    forall q :: q in PhasesThrough(p) ==>
      PhaseOutput(q, items, HashesOf(AfterPhases(nodes, start, history, PrevPhase(q))), history[q])
  }

  /** Every recorded phase saw the edges the phases before it left. */
  ghost predicate SnapshotsAgree(nodes: Nodes, start: Edges, history: map<Phase, seq<GraphEdge>>, seen: map<Phase, Edges>)
  {
    seen.Keys == history.Keys
    && forall q :: q in seen ==> seen[q] == AfterPhases(nodes, start, history, PrevPhase(q))
  }

  /** Recording the next phase extends the fold by that phase's edges and keeps the snapshots. */
  lemma SnapshotStep(nodes: Nodes, start: Edges, history: map<Phase, seq<GraphEdge>>,
                     seen: map<Phase, Edges>, c: Option<Phase>, es: seq<GraphEdge>)
    requires NextPhase(c).Some? && history.Keys == PhasesThrough(c)
    requires SnapshotsAgree(nodes, start, history, seen)
    ensures var n := NextPhase(c).value;
            var h := history[n := es];
            h.Keys == PhasesThrough(Some(n))
            && AfterPhases(nodes, start, h, Some(n)) == AddEach(nodes, AfterPhases(nodes, start, history, c), es)
            && SnapshotsAgree(nodes, start, h, seen[n := AfterPhases(nodes, start, history, c)])
  {
    var n := NextPhase(c).value;
    PhasesThroughNext(c);
    PrevOfNext(c);
    AfterPhasesFrame(nodes, start, history, n, es, c);
    forall q | q in seen
      ensures q.Value() < n.Value()
    {
      assert q in PhasesThrough(c);
    }
    SnapshotsKept(nodes, start, history, seen, c, n, es);
  }

  /** The snapshots half of `SnapshotStep`: each phase, old or new, saw what the phases before it left. */
  lemma SnapshotsKept(nodes: Nodes, start: Edges, history: map<Phase, seq<GraphEdge>>,
                      seen: map<Phase, Edges>, c: Option<Phase>, n: Phase, es: seq<GraphEdge>)
    requires SnapshotsAgree(nodes, start, history, seen)
    requires forall q :: q in seen ==> q.Value() < n.Value()
    requires PrevPhase(n) == c
    ensures SnapshotsAgree(nodes, start, history[n := es], seen[n := AfterPhases(nodes, start, history, c)])
  {
    var h := history[n := es];
    var seen' := seen[n := AfterPhases(nodes, start, history, c)];
    forall q | q in seen'
      ensures seen'[q] == AfterPhases(nodes, start, h, PrevPhase(q))
    {
      if q == n {
        AfterPhasesFrame(nodes, start, history, n, es, c);
      } else {
        AfterPhasesFrame(nodes, start, history, n, es, PrevPhase(q));
      }
    }
  }

  /** Each recorded phase holds its output on the nodes `items` and the hashes it saw. */
  ghost predicate Recorded(items: NodeList, seen: map<Phase, Edges>, history: map<Phase, seq<GraphEdge>>)
    reads set q, e | q in history && e in history[q] :: e
  {
    (forall q :: q in history ==> q in seen)
    && forall q {:trigger PhaseOutput(q, items, HashesOf(seen[q]), history[q])} :: q in history ==>
         PhaseOutput(q, items, HashesOf(seen[q]), history[q])
  }

  /** Recording one more phase's output keeps the record. */
  lemma RecordedExtend(items: NodeList, seen: map<Phase, Edges>, history: map<Phase, seq<GraphEdge>>,
                       n: Phase, before: Edges, es: seq<GraphEdge>)
    requires Recorded(items, seen, history) && PhaseOutput(n, items, HashesOf(before), es)
    ensures Recorded(items, seen[n := before], history[n := es])
  {
  }

  /** Outputs recorded against agreeing snapshots are what `PhasesRecorded` asks for. */
  lemma RecordedFromSnapshots(items: NodeList, nodes: Nodes, start: Edges, history: map<Phase, seq<GraphEdge>>,
                              seen: map<Phase, Edges>, p: Option<Phase>)
    requires history.Keys == PhasesThrough(p)
    requires SnapshotsAgree(nodes, start, history, seen) && Recorded(items, seen, history)
    ensures PhasesRecorded(items, nodes, start, history, p)
  {
  }

  /** Each recorded edge carries its phase's linkage type and round. */
  lemma RecordedTagged(items: NodeList, nodes: Nodes, start: Edges, history: map<Phase, seq<GraphEdge>>, p: Option<Phase>)
    requires history.Keys == PhasesThrough(p)
    requires PhasesRecorded(items, nodes, start, history, p)
    ensures forall q, i :: q in history && 0 <= i < |history[q]| ==>
              history[q][i].linkageType == PhaseType(q) && history[q][i].metadata.discoveredInRound == q.Value()
  {
    forall q, i | q in history && 0 <= i < |history[q]|
      ensures history[q][i].linkageType == PhaseType(q) && history[q][i].metadata.discoveredInRound == q.Value()
    {
      assert PhaseOutput(q, items, HashesOf(AfterPhases(nodes, start, history, PrevPhase(q))), history[q]);
    }
  }

  /** A BFS queue entry: a node and the edges that reached it. */
  datatype Entry = Entry(node: string, path: seq<GraphEdge>)

  class ProgramLinkageGraph {
    var nodes: Nodes
    /** The insertion order of `nodes`. */
    var nodeOrder: seq<string>
    var edges: Edges
    /** `node_id_to_edges`. */
    var adjacency: Adjacency
    /** `edge_type_index`. */
    var typeIndex: TypeIndex
    var history: map<Phase, seq<GraphEdge>>
    var currentPhase: Option<Phase>
    var traversalComplete: bool

    ghost predicate Valid()
      reads this`nodes, this`nodeOrder, this`edges, this`adjacency, this`typeIndex
    {
      GraphInv(nodes, nodeOrder, edges, adjacency, typeIndex)
    }

    constructor()
      ensures Valid()
      ensures nodes == map[] && edges == map[] && history == map[]
      ensures currentPhase == None && !traversalComplete
    {
      nodes := map[];
      nodeOrder := [];
      edges := map[];
      adjacency := map[];
      typeIndex := map[];
      history := map[];
      currentPhase := None;
      traversalComplete := false;
      assert Listed([]) == {};
    }

    /** `add_node`: refuses a known id; a new node starts with no incident edges. */
    method AddNode(id: string, node: UnitNode) returns (ok: bool)
      requires Valid()
      modifies this`nodes, this`nodeOrder, this`adjacency
      ensures Valid()
      ensures ok <==> id !in old(nodes)
      ensures ok ==> nodes == old(nodes)[id := node] && nodeOrder == old(nodeOrder) + [id]
                     && adjacency == old(adjacency)[id := []]
      ensures !ok ==> nodes == old(nodes) && nodeOrder == old(nodeOrder) && adjacency == old(adjacency)
    {
      if id in nodes {
        return false;
      }
      AddNodeInv(nodes, nodeOrder, edges, adjacency, typeIndex, id, node);
      nodes := nodes[id := node];
      nodeOrder := nodeOrder + [id];
      adjacency := adjacency[id := []];
      return true;
    }

    /** The duplicate scan of `add_edge` over the stored edges. */
    method HasSameTriple(e: GraphEdge) returns (found: bool)
      ensures found <==> exists id :: id in edges && SameTriple(edges[id], e)
    {
      found := false;
      var rest := edges.Keys;
      while rest != {} && !found
        invariant rest <= edges.Keys
        invariant found ==> exists id :: id in edges && SameTriple(edges[id], e)
        invariant !found ==> forall id :: id in edges && id !in rest ==> !SameTriple(edges[id], e)
        decreases rest
      {
        var id :| id in rest;
        if SameTriple(edges[id], e) {
          found := true;
        }
        rest := rest - {id};
      }
    }

    /**
     * `add_edge`: refuses an edge with an unknown endpoint, a known id or a
     * known (source, target, type) triple; otherwise stores it and lists its
     * id under both endpoints and under its type.
     */
    method AddEdge(e: GraphEdge) returns (ok: bool)
      requires Valid()
      modifies this`edges, this`adjacency, this`typeIndex
      ensures Valid()
      ensures ok <==> Accepts(nodes, old(edges), e)
      ensures ok ==> edges == old(edges)[e.edgeId := e]
                     && adjacency == AttachEdge(old(adjacency), e)
                     && typeIndex == IndexType(old(typeIndex), e)
      ensures !ok ==> edges == old(edges) && adjacency == old(adjacency) && typeIndex == old(typeIndex)
    {
      if e.sourceNodeId !in nodes || e.targetNodeId !in nodes || e.edgeId in edges {
        return false;
      }
      var dup := HasSameTriple(e);
      if dup {
        return false;
      }
      AddEdgeInv(nodes, nodeOrder, edges, adjacency, typeIndex, e);
      edges := edges[e.edgeId := e];
      adjacency := AttachEdge(adjacency, e);
      typeIndex := IndexType(typeIndex, e);
      return true;
    }

    /** `remove_edge`: forgets the edge and removes its id from both endpoints' lists and its type's list. */
    method RemoveEdge(id: string) returns (ok: bool)
      requires Valid()
      modifies this`edges, this`adjacency, this`typeIndex
      ensures Valid()
      ensures ok <==> id in old(edges)
      ensures ok ==> edges == old(edges) - {id}
                     && adjacency == DetachEdge(old(adjacency), old(edges)[id])
                     && typeIndex == UnindexType(old(typeIndex), old(edges)[id])
      ensures !ok ==> edges == old(edges) && adjacency == old(adjacency) && typeIndex == old(typeIndex)
    {
      if id !in edges {
        return false;
      }
      var e := edges[id];
      RemoveEdgeInv(nodes, nodeOrder, edges, adjacency, typeIndex, id);
      adjacency := DetachEdge(adjacency, e);
      typeIndex := UnindexType(typeIndex, e);
      edges := edges - {id};
      return true;
    }

    /** The `remove_edge` loop of `remove_node` over a copy of the node's list. */
    method RemoveEdgesOf(n: string)
      requires Valid() && n in nodes
      modifies this`edges, this`adjacency, this`typeIndex
      ensures Valid()
      ensures edges == (map id | id in old(edges) && !old(edges)[id].HasNode(n) :: old(edges)[id])
    {
      var toRemove := adjacency[n];
      ListedEdges(adjacency, edges, n);
      var i := 0;
      while i < |toRemove|
        invariant 0 <= i <= |toRemove|
        invariant Valid()
        invariant forall id :: id in edges ==> id in old(edges) && edges[id] == old(edges)[id]
        invariant forall id :: id in old(edges) && !old(edges)[id].HasNode(n) ==> id in edges
        invariant forall id :: id in edges && edges[id].HasNode(n) ==> id in toRemove[i..]
      {
        var _ := RemoveEdge(toRemove[i]);
        forall id | id in edges && edges[id].HasNode(n)
          ensures id in toRemove[i + 1..]
        {
          assert id in toRemove[i..] && id != toRemove[i];
          var k :| i <= k < |toRemove| && toRemove[k] == id;
          assert toRemove[i + 1..][k - i - 1] == id;
        }
        i := i + 1;
      }
    }

    /**
     * `remove_node`: removes every edge listed for the node, then the node;
     * afterwards no edge touches it and every other edge is kept.
     */
    method RemoveNode(n: string) returns (ok: bool)
      requires Valid()
      modifies this`nodes, this`nodeOrder, this`edges, this`adjacency, this`typeIndex
      ensures Valid()
      ensures ok <==> n in old(nodes)
      ensures ok ==> nodes == old(nodes) - {n} && nodeOrder == RemoveFirst(old(nodeOrder), n)
                     && edges == (map id | id in old(edges) && !old(edges)[id].HasNode(n) :: old(edges)[id])
      ensures !ok ==> nodes == old(nodes) && nodeOrder == old(nodeOrder) && edges == old(edges)
      ensures forall id :: id in edges ==> !edges[id].HasNode(n)
    {
      if n !in nodes {
        assert forall id :: id in edges ==> WellFormedEdge(nodes, id, edges[id]);
        return false;
      }
      RemoveEdgesOf(n);
      DropNodeInv(nodes, nodeOrder, edges, adjacency, typeIndex, n);
      nodes := nodes - {n};
      nodeOrder := RemoveFirst(nodeOrder, n);
      adjacency := adjacency - {n};
      return true;
    }

    /** `get_edges_for_node`: the edge objects listed for the node. */
    function EdgesForNode(n: string): (r: seq<GraphEdge>)
      requires Valid()
      reads this`nodes, this`nodeOrder, this`edges, this`adjacency, this`typeIndex
      ensures n !in nodes ==> r == []
      ensures forall i :: 0 <= i < |r| ==> Stored(r[i]) && r[i].HasNode(n)
      ensures forall id :: id in edges && edges[id].HasNode(n) ==> edges[id] in r
    {
      if n !in adjacency then
        assert forall id :: id in edges ==> WellFormedEdge(nodes, id, edges[id]);
        []
      else
        ListedEdges(adjacency, edges, n);
        var ids := adjacency[n];
        var r := Lookup(edges, ids);
        assert forall i :: 0 <= i < |r| ==> WellFormedEdge(nodes, ids[i], edges[ids[i]]);
        assert forall id :: id in edges && edges[id].HasNode(n) ==>
                 exists i :: 0 <= i < |r| && ids[i] == id && r[i] == edges[id];
        r
    }

    /** `get_edges_by_type`: the edge objects listed for the type. */
    function EdgesByType(t: LinkageType): (r: seq<GraphEdge>)
      requires Valid()
      reads this`nodes, this`nodeOrder, this`edges, this`adjacency, this`typeIndex
      ensures forall i :: 0 <= i < |r| ==> Stored(r[i]) && r[i].linkageType == t
      ensures forall id :: id in edges && edges[id].linkageType == t ==> edges[id] in r
    {
      var ids := GetOr(typeIndex, t, []);
      assert forall id :: id in ids <==> id in edges && edges[id].linkageType == t by {
        forall id ensures id in ids <==> id in edges && edges[id].linkageType == t {
          assert TypeCount(typeIndex, t, id) == TypeIncidence(edges, t, id);
        }
      }
      var r := Lookup(edges, ids);
      assert forall i :: 0 <= i < |r| ==> WellFormedEdge(nodes, ids[i], edges[ids[i]]);
      assert forall id :: id in edges && edges[id].linkageType == t ==>
               exists i :: 0 <= i < |r| && ids[i] == id && r[i] == edges[id];
      r
    }

    /** The edge is stored in the graph under its own id, and joins two of its nodes. */
    ghost predicate Stored(e: GraphEdge)
      reads this`nodes, this`edges
    {
      e.edgeId in edges && edges[e.edgeId] == e && e.sourceNodeId in nodes && e.targetNodeId in nodes
    }

    /** `get_node_degree`: the length of the node's list, a self-loop counting twice. */
    function Degree(n: string): (d: nat)
      requires Valid()
      reads this`nodes, this`nodeOrder, this`edges, this`adjacency, this`typeIndex
      ensures d == |EdgesForNode(n)|
      ensures n !in nodes ==> d == 0
    {
      if n in adjacency then |adjacency[n]| else 0
    }

    /** `get_neighbors`: for each listed edge, the node at its other end. */
    method GetNeighbors(n: string) returns (r: seq<UnitNode>)
      requires Valid()
      ensures var es := EdgesForNode(n);
              |r| == |es|
              && forall i :: 0 <= i < |r| ==>
                   es[i].GetOtherNode(n).Some? && es[i].GetOtherNode(n).value in nodes
                   && r[i] == nodes[es[i].GetOtherNode(n).value]
    {
      var es := EdgesForNode(n);
      r := [];
      var i := 0;
      while i < |es|
        invariant 0 <= i <= |es| && |r| == i
        invariant forall k :: 0 <= k < i ==>
                    es[k].GetOtherNode(n).Some? && es[k].GetOtherNode(n).value in nodes
                    && r[k] == nodes[es[k].GetOtherNode(n).value]
      {
        var e := es[i];
        var other := if e.sourceNodeId == n then e.targetNodeId else e.sourceNodeId;
        if other in nodes {
          r := r + [nodes[other]];
        }
        i := i + 1;
      }
    }

    /**
     * The loop over one node's edges in `find_path`: either an edge reaching
     * `end`, or the queue entries for neighbours not yet visited.
     */
    method Expand(cur: string, path: seq<GraphEdge>, end: string, visited: set<string>)
      returns (found: Option<GraphEdge>, pushed: seq<Entry>)
      requires Valid()
      ensures found.Some? ==> Stored(found.value) && found.value.GetOtherNode(cur) == Some(end)
      ensures found.None? ==> forall k :: 0 <= k < |pushed| ==> Extends(pushed[k], cur, path, visited)
    {
      var es := EdgesForNode(cur);
      pushed := [];
      var i := 0;
      while i < |es|
        invariant 0 <= i <= |es|
        invariant forall k :: 0 <= k < |pushed| ==> Extends(pushed[k], cur, path, visited)
      {
        var e := es[i];
        var neighbor := if e.sourceNodeId == cur then e.targetNodeId else e.sourceNodeId;
        if neighbor == end {
          return Some(e), pushed;
        }
        if neighbor !in visited {
          var x := Entry(neighbor, path + [e]);
          assert x.path[..|path|] == path;
          pushed := pushed + [x];
        }
        i := i + 1;
      }
      return None, pushed;
    }

    /** A queue entry one stored edge beyond `path`, at a node not yet visited. */
    ghost predicate Extends(x: Entry, cur: string, path: seq<GraphEdge>, visited: set<string>)
      reads this`nodes, this`edges
    {
      x.node in nodes && x.node !in visited && |x.path| == |path| + 1
      && x.path[..|path|] == path
      && Stored(x.path[|path|]) && x.path[|path|].GetOtherNode(cur) == Some(x.node)
    }

    /** A queue entry reached its node from `start` along edges of the graph, within the depth. */
    ghost predicate Reached(x: Entry, start: string, maxDepth: int)
      reads this`nodes, this`edges
    {
      x.node in nodes && WalkEnd(start, x.path) == Some(x.node)
      && (x.path == [] || |x.path| <= maxDepth)
      && forall i :: 0 <= i < |x.path| ==> Stored(x.path[i])
    }

    /** One more edge from a reached entry's node reaches its other end. */
    lemma ReachedStep(x: Entry, e: GraphEdge, y: string, start: string, maxDepth: int)
      requires Reached(x, start, maxDepth) && |x.path| < maxDepth && y in nodes
      requires Stored(e) && e.GetOtherNode(x.node) == Some(y)
      ensures Reached(Entry(y, x.path + [e]), start, maxDepth)
    {
      var p := x.path + [e];
      assert p[..|x.path|] == x.path;
      assert forall i :: 0 <= i < |x.path| ==> p[i] == x.path[i];
    }

    /** A queue entry pushed while expanding a reached entry is reached too. */
    lemma ExtendsReached(x: Entry, y: Entry, visited: set<string>, start: string, maxDepth: int)
      requires Reached(x, start, maxDepth) && |x.path| < maxDepth
      requires Extends(y, x.node, x.path, visited)
      ensures Reached(y, start, maxDepth)
    {
      assert y.path == x.path + [y.path[|x.path|]];
      ReachedStep(x, y.path[|x.path|], y.node, start, maxDepth);
    }

    /** Appending reached entries to a queue of reached entries. */
    lemma ReachedConcat(q: seq<Entry>, p: seq<Entry>, start: string, maxDepth: int)
      requires forall k :: 0 <= k < |q| ==> Reached(q[k], start, maxDepth)
      requires forall k :: 0 <= k < |p| ==> Reached(p[k], start, maxDepth)
      ensures forall k :: 0 <= k < |q + p| ==> Reached((q + p)[k], start, maxDepth)
    {
      forall k | 0 <= k < |q + p|
        ensures Reached((q + p)[k], start, maxDepth)
      {
        if k < |q| {
          assert (q + p)[k] == q[k];
        } else {
          assert (q + p)[k] == p[k - |q|];
        }
      }
    }

    /** One dequeued entry of `find_path`: the walk to `end` through one of its edges, or the entries to enqueue. */
    method Visit(x: Entry, visited: set<string>, start: string, end: string, maxDepth: int)
      returns (found: Option<seq<GraphEdge>>, pushed: seq<Entry>)
      requires Valid() && Reached(x, start, maxDepth) && |x.path| < maxDepth
      ensures found.Some? ==>
                1 <= |found.value| <= maxDepth && WalkEnd(start, found.value) == Some(end)
                && forall i :: 0 <= i < |found.value| ==> Stored(found.value[i])
      ensures found.None? ==> forall k :: 0 <= k < |pushed| ==> Reached(pushed[k], start, maxDepth)
    {
      var e;
      e, pushed := Expand(x.node, x.path, end, visited);
      if e.Some? {
        ReachedStep(x, e.value, end, start, maxDepth);
        return Some(x.path + [e.value]), pushed;
      }
      forall k | 0 <= k < |pushed|
        ensures Reached(pushed[k], start, maxDepth)
      {
        ExtendsReached(x, pushed[k], visited, start, maxDepth);
      }
      found := None;
    }

    /**
     * `find_path`: `None` when an endpoint is unknown, `[]` when they are the
     * same node, otherwise a walk of at most `maxDepth` edges from `start` that
     * ends at `end`, or `None` when the search finds none.
     */
    method FindPath(start: string, end: string, maxDepth: int) returns (r: Option<seq<GraphEdge>>)
      requires Valid()
      ensures start !in nodes || end !in nodes ==> r.None?
      ensures start in nodes && end in nodes && start == end ==> r == Some([])
      ensures r.Some? && start != end ==>
                1 <= |r.value| <= maxDepth && WalkEnd(start, r.value) == Some(end)
                && forall i :: 0 <= i < |r.value| ==> Stored(r.value[i])
    {
      if start !in nodes || end !in nodes {
        return None;
      }
      if start == end {
        return Some([]);
      }
      var visited: set<string> := {};
      var queue := [Entry(start, [])];
      while queue != []
        invariant visited <= nodes.Keys
        invariant forall k :: 0 <= k < |queue| ==> Reached(queue[k], start, maxDepth)
        decreases |nodes.Keys - visited|, |queue|
      {
        var found;
        found, queue, visited := Dequeue(queue, visited, start, end, maxDepth);
        if found.Some? {
          return found;
        }
      }
      return None;
    }

    /** One turn of the `find_path` loop: pop the head of the queue and, unless it is skipped, visit it. */
    method Dequeue(queue: seq<Entry>, visited: set<string>, start: string, end: string, maxDepth: int)
      returns (found: Option<seq<GraphEdge>>, queue': seq<Entry>, visited': set<string>)
      requires Valid() && queue != [] && visited <= nodes.Keys
      requires forall k :: 0 <= k < |queue| ==> Reached(queue[k], start, maxDepth)
      ensures found.Some? ==>
                1 <= |found.value| <= maxDepth && WalkEnd(start, found.value) == Some(end)
                && forall i :: 0 <= i < |found.value| ==> Stored(found.value[i])
      ensures visited' <= nodes.Keys
      ensures forall k :: 0 <= k < |queue'| ==> Reached(queue'[k], start, maxDepth)
      ensures |nodes.Keys - visited'| < |nodes.Keys - visited|
              || (visited' == visited && |queue'| < |queue|)
    {
      var x := queue[0];
      queue', visited' := queue[1..], visited;
      if |x.path| >= maxDepth || x.node in visited {
        return None, queue', visited';
      }
      assert nodes.Keys - (visited + {x.node}) < nodes.Keys - visited;
      visited' := visited + {x.node};
      assert |nodes.Keys - visited'| < |nodes.Keys - visited|;
      var pushed;
      found, pushed := Visit(x, visited', start, end, maxDepth);
      if found.None? {
        ReachedConcat(queue', pushed, start, maxDepth);
        queue' := queue' + pushed;
      }
    }

    /** The graph's nodes in insertion order, as `nodes.items()`. */
    function NodeItems(): (r: NodeList)
      requires Valid()
      reads this`nodes, this`nodeOrder, this`edges, this`adjacency, this`typeIndex
      ensures Ids(r) == nodeOrder && NoDuplicates(Ids(r))
    {
      assert forall n :: n in nodeOrder ==> n in nodes by {
        assert forall n :: n in nodeOrder ==> n in Listed(nodeOrder);
      }
      NodeListOf(nodeOrder, nodes)
    }

    /** `set(self.edges.values())`, by hash tuple. */
    function ExistingHashes(): set<HashKey>
      reads this`edges
    {
      HashesOf(edges)
    }

    /** The `add_edge` loop over a phase's new edges. */
    method AddAll(es: seq<GraphEdge>)
      requires Valid()
      modifies this`edges, this`adjacency, this`typeIndex
      ensures Valid()
      ensures edges == AddEach(nodes, old(edges), es)
    {
      var k := 0;
      while k < |es|
        invariant 0 <= k <= |es|
        invariant Valid()
        invariant edges == AddEach(nodes, old(edges), es[..k])
      {
        var _ := AddEdge(es[k]);
        assert es[..k + 1][..k] == es[..k];
        k := k + 1;
      }
      assert es[..|es|] == es;
    }

    /**
     * `execute_single_traversal_phase`: after the last phase it only marks the
     * traversal complete; otherwise it runs the next phase, adds its edges one
     * by one, records them in the history and advances the current phase.
     */
    method ExecuteSingleTraversalPhase() returns (newEdges: seq<GraphEdge>)
      requires Valid()
      modifies this`edges, this`adjacency, this`typeIndex, this`history, this`currentPhase, this`traversalComplete
      ensures Valid()
      ensures NextPhase(old(currentPhase)).None? ==>
                traversalComplete && newEdges == [] && edges == old(edges)
                && history == old(history) && currentPhase == old(currentPhase)
      ensures NextPhase(old(currentPhase)).Some? ==>
                var phase := NextPhase(old(currentPhase)).value;
                currentPhase == Some(phase) && traversalComplete == old(traversalComplete)
                && history == old(history)[phase := newEdges]
                && (forall i :: 0 <= i < |newEdges| ==> fresh(newEdges[i]))
                && PhaseOutput(phase, old(NodeItems()), old(ExistingHashes()), newEdges)
                && edges == AddEach(nodes, old(edges), newEdges)
    {
      var next := NextPhase(currentPhase);
      if next.None? {
        traversalComplete := true;
        return [];
      }
      var phase := next.value;
      newEdges := RunPhase(phase);
      RecordPhase(phase, newEdges);
    }

    /** The second half of `execute_single_traversal_phase`: add the phase's edges, then record the phase. */
    method RecordPhase(phase: Phase, newEdges: seq<GraphEdge>)
      requires Valid()
      modifies this`edges, this`adjacency, this`typeIndex, this`history, this`currentPhase
      ensures Valid()
      ensures edges == AddEach(nodes, old(edges), newEdges)
      ensures history == old(history)[phase := newEdges] && currentPhase == Some(phase)
    {
      AddAll(newEdges);
      history := history[phase := newEdges];
      currentPhase := Some(phase);
    }

    /** One phase run over a snapshot of the nodes and of the stored edges' hashes. */
    method RunPhase(phase: Phase) returns (newEdges: seq<GraphEdge>)
      requires Valid()
      ensures forall i :: 0 <= i < |newEdges| ==> fresh(newEdges[i])
      ensures PhaseOutput(phase, NodeItems(), ExistingHashes(), newEdges)
    {
      var items := NodeItems();
      var existing := ExistingHashes();
      newEdges := ExecutePhase(phase, items, existing);
      PhaseOutputHolds(phase, items, existing, newEdges);
    }

    /**
     * `execute_full_traversal`: resets the traversal and runs phases until it
     * is complete.  The history returned holds, for each of the five phases,
     * the new edges that phase discovered on the graph as the earlier phases
     * left it, and the stored edges are the starting ones with each phase's
     * edges added in phase order.
     */
    method ExecuteFullTraversal() returns (h: map<Phase, seq<GraphEdge>>)
      requires Valid()
      modifies this`edges, this`adjacency, this`typeIndex, this`history, this`currentPhase, this`traversalComplete
      ensures Valid()
      ensures traversalComplete && currentPhase == Some(Phase5Invocation)
      ensures h == history && h.Keys == PhasesThrough(Some(Phase5Invocation))
      ensures edges == AfterPhases(nodes, old(edges), h, Some(Phase5Invocation))
      ensures PhasesRecorded(old(NodeItems()), nodes, old(edges), h, Some(Phase5Invocation))
      ensures forall q, i :: q in h && 0 <= i < |h[q]| ==>
                fresh(h[q][i]) && h[q][i].linkageType == PhaseType(q)
                && h[q][i].metadata.discoveredInRound == q.Value()
    {
      ghost var items := NodeItems();
      ghost var seen: map<Phase, Edges> := map[];
      ResetTraversal(items);
      while !traversalComplete
        invariant Traversing(items, old(edges), seen) && Recorded(items, seen, history)
        invariant forall q, i :: q in history && 0 <= i < |history[q]| ==> fresh(history[q][i])
        decreases Remaining(currentPhase, traversalComplete)
      {
        var _, seen' := TraversalStep(items, old(edges), seen);
        seen := seen';
      }
      h := history;
      RecordedFromSnapshots(items, nodes, old(edges), h, seen, currentPhase);
      RecordedTagged(items, nodes, old(edges), h, currentPhase);
    }

    /** The reset at the start of `execute_full_traversal`: no phase run, none recorded. */
    method ResetTraversal(ghost items: NodeList)
      requires Valid() && NodeItems() == items
      modifies this`history, this`currentPhase, this`traversalComplete
      ensures currentPhase == None && !traversalComplete && history == map[]
      ensures Traversing(items, edges, map[]) && Recorded(items, map[], history)
    {
      currentPhase := None;
      traversalComplete := false;
      history := map[];
    }

    /** The graph state the `execute_full_traversal` loop keeps, given the snapshots each phase saw. */
    ghost predicate Traversing(items: NodeList, start: Edges, seen: map<Phase, Edges>)
      reads this
    {
      Valid() && NodeItems() == items
      && (traversalComplete ==> currentPhase == Some(Phase5Invocation))
      && history.Keys == PhasesThrough(currentPhase)
      && edges == AfterPhases(nodes, start, history, currentPhase)
      && SnapshotsAgree(nodes, start, history, seen)
    }

    /** One pass of the `execute_full_traversal` loop: the next phase runs, or the traversal completes. */
    method TraversalStep(ghost items: NodeList, ghost start: Edges, ghost seen: map<Phase, Edges>)
        returns (es: seq<GraphEdge>, ghost seen': map<Phase, Edges>)
      requires !traversalComplete && Traversing(items, start, seen) && Recorded(items, seen, history)
      modifies this`edges, this`adjacency, this`typeIndex, this`history, this`currentPhase, this`traversalComplete
      ensures Traversing(items, start, seen') && Recorded(items, seen', history)
      ensures Remaining(currentPhase, traversalComplete) < Remaining(old(currentPhase), old(traversalComplete))
      ensures NextPhase(old(currentPhase)).None? ==> history == old(history)
      ensures NextPhase(old(currentPhase)).Some? ==> history == old(history)[NextPhase(old(currentPhase)).value := es]
      ensures forall i :: 0 <= i < |es| ==> fresh(es[i])
    {
      ghost var before := currentPhase;
      ghost var h0 := history;
      ghost var e0 := edges;
      es := ExecuteSingleTraversalPhase();
      seen' := seen;
      if NextPhase(before).Some? {
        SnapshotStep(nodes, start, h0, seen, before, es);
        RecordedExtend(items, seen, h0, NextPhase(before).value, e0, es);
        seen' := seen[NextPhase(before).value := e0];
      }
    }
  }

  /**
   * What a phase hands back: one edge per spec, tagged with the round, of the
   * phase's type; never a self-loop unless the phase is phase 3 and some node
   * lists one role twice.
   */
  ghost predicate PhaseOutput(phase: Phase, nodes: NodeList, existing: set<HashKey>, es: seq<GraphEdge>)
    reads set e | e in es
  {
    var specs := PhaseSpecs(phase, nodes, existing);
    |es| == |specs|
    && (forall i :: 0 <= i < |es| ==>
          FromSpec(es[i], specs[i]) && es[i].metadata.discoveredInRound == phase.Value()
          && es[i].linkageType == PhaseType(phase))
    && (phase != Phase3Association || RolesListedOnce(nodes) ==>
          forall i :: 0 <= i < |es| ==> es[i].sourceNodeId != es[i].targetNodeId)
  }

  lemma PhaseOutputHolds(phase: Phase, nodes: NodeList, existing: set<HashKey>, es: seq<GraphEdge>)
    requires NoDuplicates(Ids(nodes))
    requires var specs := PhaseSpecs(phase, nodes, existing);
             |es| == |specs|
             && forall i :: 0 <= i < |es| ==>
                  Built(es[i], specs[i]) && es[i].metadata.discoveredInRound == phase.Value()
    ensures PhaseOutput(phase, nodes, existing, es)
  {
    var specs := PhaseSpecs(phase, nodes, existing);
    PhaseSpecsFacts(phase, nodes, existing);
    forall i | 0 <= i < |es|
      ensures es[i].linkageType == PhaseType(phase)
      ensures phase != Phase3Association || RolesListedOnce(nodes) ==> es[i].sourceNodeId != es[i].targetNodeId
    {
      assert specs[i] in specs;
    }
  }
}
