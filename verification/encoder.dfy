/**
 * The prefab function encoder (core/linkage_graph/encoder/prefab_function_encoder.py).
 *
 * Interaction edges become one targeting function each.  For the other four
 * linkage types the edges of that type form an undirected subgraph; it is split
 * into connected components by breadth-first search, every maximal clique of
 * two or more nodes inside a component is found by trying every combination of
 * the component's nodes from the largest size down, and each clique becomes one
 * function.  Functions are numbered by a counter that grows by one per function.
 */
module PrefabEncoder {
  import opened Common
  import opened LinkageEdge
  import opened TraversalStrategy
  import opened LinkageGraph
  import opened PrefabRecord

  // ------------------------------------------------------------- subgraph

  /** A `defaultdict(list)` adjacency, with its keys in insertion order. */
  datatype Subgraph = Subgraph(keys: seq<string>, adj: map<string, seq<string>>)

  /** `subgraph[x]` read without inserting the key. */
  function Nbrs(sg: Subgraph, x: string): seq<string>
  {
    GetOr(sg.adj, x, [])
  }

  /** `subgraph[a].append(b)`. */
  function Link(sg: Subgraph, a: string, b: string): Subgraph
  {
    Subgraph(if a in sg.adj then sg.keys else sg.keys + [a], sg.adj[a := Nbrs(sg, a) + [b]])
  }

  /** The endpoints of the edges, source then target. */
  function Pairs(es: seq<GraphEdge>): (r: seq<(string, string)>)
    ensures |r| == |es|
    ensures forall i :: 0 <= i < |es| ==> r[i] == (es[i].sourceNodeId, es[i].targetNodeId)
  {
    if es == [] then [] else Pairs(es[..|es| - 1]) + [(es[|es| - 1].sourceNodeId, es[|es| - 1].targetNodeId)]
  }

  /** `_build_subgraph`: each edge is appended to its source's list and its target's. */
  function SubgraphOf(pairs: seq<(string, string)>): Subgraph
  {
    if pairs == [] then Subgraph([], map[])
    else
      var p := pairs[|pairs| - 1];
      Link(Link(SubgraphOf(pairs[..|pairs| - 1]), p.0, p.1), p.1, p.0)
  }

  /** The keys are listed once each, and are exactly the adjacency's keys. */
  ghost predicate WellFormed(sg: Subgraph)
  {
    NoDuplicates(sg.keys) && forall k :: k in sg.keys <==> k in sg.adj
  }

  /** Every adjacency is recorded in both directions. */
  ghost predicate Symmetric(sg: Subgraph)
  {
    forall a, b :: b in Nbrs(sg, a) ==> a in Nbrs(sg, b)
  }

  lemma LinkFacts(sg: Subgraph, a: string, b: string)
    requires WellFormed(sg)
    ensures WellFormed(Link(sg, a, b))
    ensures forall x, y :: y in Nbrs(Link(sg, a, b), x) <==> y in Nbrs(sg, x) || (x == a && y == b)
  {
    var t := Link(sg, a, b);
    forall x, y ensures y in Nbrs(t, x) <==> y in Nbrs(sg, x) || (x == a && y == b) {
      if x == a {
        assert Nbrs(t, x) == Nbrs(sg, a) + [b];
      }
    }
  }

  /** `b` is a neighbour of `a` exactly when some pair joins them, in either order. */
  ghost predicate Records(sg: Subgraph, pairs: seq<(string, string)>)
  {
    WellFormed(sg)
    && (forall a, b :: b in Nbrs(sg, a) <==> (a, b) in pairs || (b, a) in pairs)
    && (forall k :: k in sg.adj ==> Nbrs(sg, k) != [])
  }

  /** Appending one more edge in both directions records it. */
  lemma LinkBoth(sg: Subgraph, pairs: seq<(string, string)>, p: (string, string))
    requires Records(sg, pairs)
    ensures Records(Link(Link(sg, p.0, p.1), p.1, p.0), pairs + [p])
  {
    var s1 := Link(sg, p.0, p.1);
    var s2 := Link(s1, p.1, p.0);
    LinkFacts(sg, p.0, p.1);
    LinkFacts(s1, p.1, p.0);
    forall a, b ensures b in Nbrs(s2, a) <==> (a, b) in pairs + [p] || (b, a) in pairs + [p] {
      assert (a, b) in pairs + [p] <==> (a, b) in pairs || (a, b) == p;
      assert (b, a) in pairs + [p] <==> (b, a) in pairs || (b, a) == p;
    }
    forall k | k in s2.adj ensures Nbrs(s2, k) != [] {
      if k == p.1 {
        assert p.0 in Nbrs(s2, k);
      } else if k == p.0 {
        assert p.1 in Nbrs(s2, k);
      }
    }
  }

  /**
   * The subgraph is well formed, every key has at least one neighbour, and `b`
   * is a neighbour of `a` exactly when some edge joins them in either direction;
   * in particular the adjacency is symmetric.
   */
  lemma {:induction false} SubgraphOfFacts(pairs: seq<(string, string)>)
    ensures Records(SubgraphOf(pairs), pairs)
    decreases |pairs|
  {
    if pairs != [] {
      var init := pairs[..|pairs| - 1];
      SplitLast(pairs);
      SubgraphOfFacts(init);
      LinkBoth(SubgraphOf(init), init, pairs[|pairs| - 1]);
    }
  }

  lemma SplitLast<T>(s: seq<T>)
    requires s != []
    ensures s == s[..|s| - 1] + [s[|s| - 1]]
  {
  }

  lemma SubgraphOfSymmetric(pairs: seq<(string, string)>)
    ensures Symmetric(SubgraphOf(pairs))
  {
    SubgraphOfFacts(pairs);
  }

  /** `_build_subgraph(edges)`. */
  method BuildSubgraph(es: seq<GraphEdge>) returns (sg: Subgraph)
    ensures sg == SubgraphOf(Pairs(es))
  {
    sg := Subgraph([], map[]);
    var i := 0;
    while i < |es|
      invariant 0 <= i <= |es|
      invariant sg == SubgraphOf(Pairs(es[..i]))
    {
      var src, tgt := es[i].sourceNodeId, es[i].targetNodeId;
      assert es[..i + 1][..i] == es[..i];
      assert Pairs(es[..i + 1]) == Pairs(es[..i]) + [(src, tgt)];
      sg := Link(sg, src, tgt);
      sg := Link(sg, tgt, src);
      i := i + 1;
    }
    assert es[..i] == es;
  }

  // ---------------------------------------------------------- components

  function Flatten(cs: seq<seq<string>>): seq<string>
  {
    if cs == [] then [] else Flatten(cs[..|cs| - 1]) + cs[|cs| - 1]
  }

  /** No neighbour of a member lies outside. */
  ghost predicate Closed(sg: Subgraph, c: seq<string>)
  {
    forall x, y :: x in c && y in Nbrs(sg, x) ==> y in c
  }

  ghost predicate ClosedSet(sg: Subgraph, v: set<string>)
  {
    forall x, y :: x in v && y in Nbrs(sg, x) ==> y in v
  }

  /**
   * Every member after the first is a neighbour of an earlier member: the
   * order in which a breadth-first search reaches a component.
   */
  ghost predicate Spanning(sg: Subgraph, c: seq<string>)
  {
    SpanningUpTo(sg, c, |c|)
  }

  /** `Spanning` for the first `n` members. */
  ghost predicate SpanningUpTo(sg: Subgraph, c: seq<string>, n: nat)
    requires n <= |c|
    decreases n
  {
    n <= 1 || (SpanningUpTo(sg, c, n - 1) && exists p :: 0 <= p < n - 1 && c[n - 1] in Nbrs(sg, c[p]))
  }

  /** Consecutive members are neighbours. */
  ghost predicate IsWalk(sg: Subgraph, w: seq<string>)
  {
    w != [] && forall i :: 0 <= i < |w| - 1 ==> w[i + 1] in Nbrs(sg, w[i])
  }

  /** `SpanningUpTo` looks only at the first `n` members. */
  lemma {:induction false} SpanningUpToPrefix(sg: Subgraph, c: seq<string>, d: seq<string>, n: nat)
    requires n <= |c| && n <= |d| && c[..n] == d[..n]
    ensures SpanningUpTo(sg, c, n) == SpanningUpTo(sg, d, n)
    decreases n
  {
    if n > 1 {
      assert c[..n - 1] == d[..n - 1] by {
        assert c[..n - 1] == c[..n][..n - 1] && d[..n - 1] == d[..n][..n - 1];
      }
      SpanningUpToPrefix(sg, c, d, n - 1);
      assert forall p :: 0 <= p < n ==> c[p] == c[..n][p] == d[..n][p] == d[p];
    }
  }

  lemma SpanningAppend(sg: Subgraph, c: seq<string>, p: nat, y: string)
    requires Spanning(sg, c) && p < |c| && y in Nbrs(sg, c[p])
    ensures Spanning(sg, c + [y])
  {
    var t := c + [y];
    assert t[..|c|] == c[..|c|];
    SpanningUpToPrefix(sg, c, t, |c|);
    assert t[p] == c[p] && t[|t| - 1] == y;
  }

  /** Queueing neighbours of the last visited node keeps the search order. */
  lemma {:induction false} SpanningPush(sg: Subgraph, comp: seq<string>, queue: seq<string>, queue': seq<string>)
    requires Spanning(sg, comp + queue) && comp != []
    requires |queue'| >= |queue| && queue'[..|queue|] == queue
    requires forall m :: |queue| <= m < |queue'| ==> queue'[m] in Nbrs(sg, comp[|comp| - 1])
    ensures Spanning(sg, comp + queue')
    decreases |queue'|
  {
    if |queue'| > |queue| {
      var init := queue'[..|queue'| - 1];
      assert init[..|queue|] == queue;
      SpanningPush(sg, comp, queue, init);
      assert (comp + init)[|comp| - 1] == comp[|comp| - 1];
      SpanningAppend(sg, comp + init, |comp| - 1, queue'[|queue'| - 1]);
      assert comp + queue' == (comp + init) + [queue'[|queue'| - 1]];
    } else {
      assert queue' == queue;
    }
  }

  lemma {:induction false} SpanningAt(sg: Subgraph, c: seq<string>, n: nat, j: nat)
    requires n <= |c| && SpanningUpTo(sg, c, n) && 0 < j < n
    ensures exists p :: 0 <= p < j && c[j] in Nbrs(sg, c[p])
    decreases n
  {
    if j < n - 1 {
      SpanningAt(sg, c, n - 1, j);
    }
  }

  /**
   * Every member of a component in search order is reached from its first
   * member by a walk through the component: the component is connected.
   */
  lemma {:induction false} SpanningConnected(sg: Subgraph, c: seq<string>, j: nat)
    requires Spanning(sg, c) && j < |c|
    ensures exists w :: IsWalk(sg, w) && w[0] == c[0] && w[|w| - 1] == c[j] && forall x :: x in w ==> x in c
    decreases j
  {
    if j == 0 {
      var w := [c[0]];
      assert IsWalk(sg, w) && w[0] == c[0] && w[|w| - 1] == c[j];
    } else {
      SpanningAt(sg, c, |c|, j);
      var p :| 0 <= p < j && c[j] in Nbrs(sg, c[p]);
      SpanningConnected(sg, c, p);
      var w :| IsWalk(sg, w) && w[0] == c[0] && w[|w| - 1] == c[p] && forall x :: x in w ==> x in c;
      var w' := w + [c[j]];
      assert w'[|w'| - 2] == c[p];
      assert IsWalk(sg, w') by {
        forall i | 0 <= i < |w'| - 1 ensures w'[i + 1] in Nbrs(sg, w'[i]) {
          if i < |w| - 1 {
            assert w'[i] == w[i] && w'[i + 1] == w[i + 1];
          }
        }
      }
      assert w'[0] == c[0] && w'[|w'| - 1] == c[j];
    }
  }

  /** The root of component `i` is the first key, in the subgraph's key order, that no earlier component holds. */
  ghost predicate FirstUnvisited(sg: Subgraph, comps: seq<seq<string>>, i: nat)
    requires i < |comps| && comps[i] != []
  {
    exists r :: 0 <= r < |sg.keys| && comps[i][0] == sg.keys[r] &&
      forall m :: 0 <= m < r ==> sg.keys[m] in Flatten(comps[..i])
  }

  lemma NoDuplicatesConcat(a: seq<string>, b: seq<string>)
    requires NoDuplicates(a) && NoDuplicates(b)
    requires forall x :: x in b ==> x !in a
    ensures NoDuplicates(a + b)
  {
    var s := a + b;
    forall i, j | 0 <= i < j < |s| ensures s[i] != s[j] {
      if j < |a| {
        assert s[i] == a[i] && s[j] == a[j];
      } else if i >= |a| {
        assert s[i] == b[i - |a|] && s[j] == b[j - |a|];
      } else {
        assert s[i] == a[i] && s[j] == b[j - |a|] && b[j - |a|] in b;
      }
    }
  }

  lemma SymmetricAt(sg: Subgraph, a: string, b: string)
    requires Symmetric(sg) && b in Nbrs(sg, a)
    ensures a in Nbrs(sg, b)
  {
  }

  /** A neighbour of a symmetric subgraph's node is itself a key. */
  lemma NeighbourIsKey(sg: Subgraph, x: string, y: string)
    requires Symmetric(sg) && y in Nbrs(sg, x)
    ensures y in sg.adj
  {
    assert x in Nbrs(sg, y);
  }

  /**
   * `_find_connected_components`: the components partition the subgraph's
   * nodes (each node lies in exactly one component, once), no component is
   * empty, no edge leaves a component, each lists its nodes in an order in
   * which every node after the first neighbours an earlier one (so each is
   * connected), and each starts from the first key not in an earlier one.
   */
  method FindConnectedComponents(sg: Subgraph) returns (comps: seq<seq<string>>)
    requires WellFormed(sg) && Symmetric(sg)
    ensures forall k :: k in Flatten(comps) <==> k in sg.adj
    ensures NoDuplicates(Flatten(comps))
    ensures forall i :: 0 <= i < |comps| ==> comps[i] != [] && Closed(sg, comps[i]) && Spanning(sg, comps[i])
    ensures forall i :: 0 <= i < |comps| ==> FirstUnvisited(sg, comps, i)
  {
    var visited: set<string> := {};
    comps := [];
    var i := 0;
    while i < |sg.keys|
      invariant i <= |sg.keys| && Placed(sg, comps, visited, i)
    {
      comps, visited := PlaceKey(sg, comps, visited, i);
      i := i + 1;
    }
  }

  /**
   * The outer loop's state once the first `i` keys are placed: `visited` holds
   * exactly the listed nodes, each once, and every component found so far is
   * closed, in search order and rooted at the first key no earlier one holds.
   */
  ghost predicate Placed(sg: Subgraph, comps: seq<seq<string>>, visited: set<string>, i: nat)
  {
    i <= |sg.keys|
    && (forall k :: k in visited <==> k in Flatten(comps))
    && visited <= sg.adj.Keys
    && (forall j :: 0 <= j < i ==> sg.keys[j] in visited)
    && NoDuplicates(Flatten(comps))
    && (forall j :: 0 <= j < |comps| ==> comps[j] != [] && Closed(sg, comps[j]) && Spanning(sg, comps[j]))
    && (forall j :: 0 <= j < |comps| ==> FirstUnvisited(sg, comps, j))
    && ClosedSet(sg, visited)
  }

  /** One outer step: key `i` starts a new component unless an earlier one already holds it. */
  method PlaceKey(sg: Subgraph, comps: seq<seq<string>>, visited: set<string>, i: nat)
    returns (comps': seq<seq<string>>, visited': set<string>)
    requires WellFormed(sg) && Symmetric(sg)
    requires i < |sg.keys| && Placed(sg, comps, visited, i)
    ensures Placed(sg, comps', visited', i + 1)
  {
    var k := sg.keys[i];
    comps', visited' := comps, visited;
    if k !in visited {
      comps', visited' := AddComponent(sg, comps, visited, k);
      RootsKept(sg, comps, comps', i);
    }
  }

  /** Appending the component rooted at key `r`, all of whose predecessors are placed, keeps every root first-unvisited. */
  lemma RootsKept(sg: Subgraph, comps: seq<seq<string>>, comps': seq<seq<string>>, r: nat)
    requires r < |sg.keys|
    requires forall j :: 0 <= j < |comps| ==> comps[j] != [] && FirstUnvisited(sg, comps, j)
    requires |comps'| == |comps| + 1 && comps'[..|comps|] == comps
    requires comps'[|comps|] != [] && comps'[|comps|][0] == sg.keys[r]
    requires forall m :: 0 <= m < r ==> sg.keys[m] in Flatten(comps)
    ensures forall j :: 0 <= j < |comps'| ==> comps'[j] != [] && FirstUnvisited(sg, comps', j)
  {
    forall j | 0 <= j < |comps'| ensures comps'[j] != [] && FirstUnvisited(sg, comps', j) {
      if j < |comps| {
        assert comps'[j] == comps[j];
        assert comps'[..j] == comps[..j];
        assert FirstUnvisited(sg, comps, j);
      } else {
        assert comps'[..j] == comps;
      }
    }
  }

  /** One outer step: the component of an unvisited node is appended and marked. */
  method AddComponent(sg: Subgraph, comps: seq<seq<string>>, visited: set<string>, k: string)
    returns (comps': seq<seq<string>>, visited': set<string>)
    requires WellFormed(sg) && Symmetric(sg)
    requires k in sg.adj && k !in visited && visited <= sg.adj.Keys
    requires forall x :: x in visited <==> x in Flatten(comps)
    requires NoDuplicates(Flatten(comps)) && ClosedSet(sg, visited)
    requires forall j :: 0 <= j < |comps| ==> comps[j] != [] && Closed(sg, comps[j]) && Spanning(sg, comps[j])
    ensures forall x :: x in visited' <==> x in Flatten(comps')
    ensures visited <= visited' <= sg.adj.Keys && k in visited'
    ensures NoDuplicates(Flatten(comps')) && ClosedSet(sg, visited')
    ensures forall j :: 0 <= j < |comps'| ==> comps'[j] != [] && Closed(sg, comps'[j]) && Spanning(sg, comps'[j])
    ensures |comps'| == |comps| + 1 && comps'[..|comps|] == comps && comps'[|comps|][0] == k
  {
    var comp, vis := Explore(sg, k, visited);
    NoDuplicatesConcat(Flatten(comps), comp);
    assert Flatten(comps + [comp]) == Flatten(comps) + comp;
    comps' := comps + [comp];
    visited' := vis;
  }

  /** One breadth-first search from `root`, marking what it reaches in `visited`. */
  method Explore(sg: Subgraph, root: string, visited: set<string>) returns (comp: seq<string>, vis: set<string>)
    requires WellFormed(sg) && Symmetric(sg)
    requires root in sg.adj && root !in visited && visited <= sg.adj.Keys
    requires ClosedSet(sg, visited)
    ensures root in comp && NoDuplicates(comp) && Closed(sg, comp)
    ensures comp != [] && comp[0] == root && Spanning(sg, comp)
    ensures forall x :: x in comp ==> x !in visited && x in sg.adj
    ensures forall x :: x in vis <==> x in visited || x in comp
    ensures vis <= sg.adj.Keys && ClosedSet(sg, vis)
  {
    var queue := [root];
    vis := visited + {root};
    comp := [];
    while queue != []
      invariant Searching(sg, root, visited, comp, queue, vis)
      decreases sg.adj.Keys - vis, |queue|
    {
      comp, queue, vis := VisitNext(sg, root, visited, comp, queue, vis);
    }
    assert comp + queue == comp;
  }

  /**
   * The search's state: `comp` holds the visited nodes and `queue` those
   * waiting, together without repeats, in search order from `root`, none
   * visited before the search; `vis` marks them and what was visited before;
   * every neighbour of a visited node is visited or waiting.
   */
  ghost predicate Searching(sg: Subgraph, root: string, visited: set<string>,
                            comp: seq<string>, queue: seq<string>, vis: set<string>)
  {
    NoDuplicates(comp + queue)
    && (forall x :: x in comp + queue ==> x !in visited && x in sg.adj)
    && (forall x :: x in vis <==> x in visited || x in comp + queue)
    && vis <= sg.adj.Keys
    && (forall x, y :: x in comp && y in Nbrs(sg, x) ==> y in comp || y in queue)
    && comp + queue != [] && (comp + queue)[0] == root
    && Spanning(sg, comp + queue)
  }

  /** One outer step of the search: the head of the queue is visited and its unvisited neighbours queued. */
  method VisitNext(sg: Subgraph, root: string, visited: set<string>,
                   comp: seq<string>, queue: seq<string>, vis: set<string>)
    returns (comp': seq<string>, queue': seq<string>, vis': set<string>)
    requires Symmetric(sg) && ClosedSet(sg, visited)
    requires queue != [] && Searching(sg, root, visited, comp, queue, vis)
    ensures Searching(sg, root, visited, comp', queue', vis')
    ensures (vis' == vis && |queue'| < |queue|) || vis < vis'
  {
    var cur := queue[0];
    assert (comp + [cur]) + queue[1..] == comp + queue;
    comp' := comp + [cur];
    queue', vis' := PushNeighbours(sg, visited, comp', queue[1..], vis, cur);
    SpanningPush(sg, comp', queue[1..], queue');
    assert (comp' + queue')[0] == comp'[0] == (comp + queue)[0];
  }

  /** The inner loop of the search: the unvisited neighbours of `cur` are marked and queued. */
  method PushNeighbours(sg: Subgraph, visited: set<string>, comp: seq<string>, queue: seq<string>,
                        vis: set<string>, cur: string)
    returns (queue': seq<string>, vis': set<string>)
    requires Symmetric(sg) && ClosedSet(sg, visited)
    requires comp != [] && cur == comp[|comp| - 1]
    requires NoDuplicates(comp + queue)
    requires forall x :: x in comp + queue ==> x !in visited && x in sg.adj
    requires forall x :: x in vis <==> x in visited || x in comp + queue
    requires vis <= sg.adj.Keys
    requires forall x, y :: x in comp[..|comp| - 1] && y in Nbrs(sg, x) ==> y in comp || y in queue
    ensures |queue'| >= |queue| && queue'[..|queue|] == queue
    ensures forall m :: |queue| <= m < |queue'| ==> queue'[m] in Nbrs(sg, cur)
    ensures NoDuplicates(comp + queue')
    ensures forall x :: x in comp + queue' ==> x !in visited && x in sg.adj
    ensures forall x :: x in vis' <==> x in visited || x in comp + queue'
    ensures vis' <= sg.adj.Keys
    ensures forall x, y :: x in comp && y in Nbrs(sg, x) ==> y in comp || y in queue'
    ensures queue' == queue ==> vis' == vis
    ensures vis' >= vis && (queue' != queue ==> vis' > vis)
  {
    var nbrs := Nbrs(sg, cur);
    queue', vis' := queue, vis;
    var j := 0;
    while j < |nbrs|
      invariant 0 <= j <= |nbrs|
      invariant NoDuplicates(comp + queue')
      invariant forall x :: x in comp + queue' ==> x !in visited && x in sg.adj
      invariant forall x :: x in vis' <==> x in visited || x in comp + queue'
      invariant vis' <= sg.adj.Keys
      invariant forall x, y :: x in comp[..|comp| - 1] && y in Nbrs(sg, x) ==> y in comp || y in queue'
      invariant forall k :: 0 <= k < j ==> nbrs[k] in comp || nbrs[k] in queue'
      invariant queue' == queue ==> vis' == vis
      invariant vis' >= vis && (queue' != queue ==> vis' > vis)
      invariant |queue'| >= |queue| && queue'[..|queue|] == queue
      invariant forall m :: |queue| <= m < |queue'| ==> queue'[m] in Nbrs(sg, cur)
    {
      var y := nbrs[j];
      SymmetricAt(sg, cur, y);
      if y !in vis' {
        NeighbourIsKey(sg, cur, y);
        assert comp + (queue' + [y]) == (comp + queue') + [y];
        queue' := queue' + [y];
        vis' := vis' + {y};
      }
      j := j + 1;
    }
    forall x, y | x in comp && y in Nbrs(sg, x) ensures y in comp || y in queue' {
      if x != cur {
        assert x in comp[..|comp| - 1];
      }
    }
  }

  // -------------------------------------------------------------- cliques

  function Prepend(x: string, cs: seq<seq<string>>): (r: seq<seq<string>>)
    ensures |r| == |cs| && forall i :: 0 <= i < |cs| ==> r[i] == [x] + cs[i]
  {
    if cs == [] then [] else [[x] + cs[0]] + Prepend(x, cs[1..])
  }

  /** `itertools.combinations(xs, k)`, in the order it yields them. */
  function Combos(xs: seq<string>, k: nat): seq<seq<string>>
    decreases |xs|
  {
    if k == 0 then [[]]
    else if xs == [] then []
    else Prepend(xs[0], Combos(xs[1..], k - 1)) + Combos(xs[1..], k)
  }

  /** `c` has `k` members, all drawn from `xs`, none repeated when `xs` repeats none. */
  ghost predicate ComboOf(xs: seq<string>, k: nat, c: seq<string>)
  {
    |c| == k && (forall y :: y in c ==> y in xs) && (NoDuplicates(xs) ==> NoDuplicates(c))
  }

  lemma PrependCombo(xs: seq<string>, k: nat, d: seq<string>)
    requires xs != [] && k > 0 && ComboOf(xs[1..], k - 1, d)
    ensures ComboOf(xs, k, [xs[0]] + d)
  {
    var c := [xs[0]] + d;
    assert forall y :: y in xs[1..] ==> y in xs;
    if NoDuplicates(xs) {
      assert NoDuplicates(xs[1..]) by {
        forall a, b | 0 <= a < b < |xs[1..]| ensures xs[1..][a] != xs[1..][b] {
          assert xs[1..][a] == xs[a + 1] && xs[1..][b] == xs[b + 1];
        }
      }
      assert xs[0] !in xs[1..] by {
        forall m | 0 <= m < |xs[1..]| ensures xs[1..][m] != xs[0] {
          assert xs[1..][m] == xs[m + 1];
        }
      }
      forall a, b | 0 <= a < b < |c| ensures c[a] != c[b] {
        assert c[b] == d[b - 1] && d[b - 1] in d;
        if a > 0 {
          assert c[a] == d[a - 1];
        }
      }
    }
  }

  lemma {:induction false} CombosFacts(xs: seq<string>, k: nat)
    ensures forall c :: c in Combos(xs, k) ==> ComboOf(xs, k, c)
    decreases |xs|
  {
    if k > 0 && xs != [] {
      var rest := xs[1..];
      var ds := Combos(rest, k - 1);
      CombosFacts(rest, k - 1);
      CombosFacts(rest, k);
      forall c | c in Prepend(xs[0], ds) ensures ComboOf(xs, k, c) {
        var i :| 0 <= i < |ds| && c == Prepend(xs[0], ds)[i];
        PrependCombo(xs, k, ds[i]);
      }
      forall c | c in Combos(rest, k) ensures ComboOf(xs, k, c) {
        assert forall y :: y in rest ==> y in xs;
        if NoDuplicates(xs) {
          assert NoDuplicates(rest) by {
            forall a, b | 0 <= a < b < |rest| ensures rest[a] != rest[b] {
              assert rest[a] == xs[a + 1] && rest[b] == xs[b + 1];
            }
          }
        }
      }
    }
  }

  /** Every later member is in every earlier member's list: the test of `_find_max_cliques`. */
  ghost predicate IsClique(sg: Subgraph, c: seq<string>)
  {
    forall i, j :: 0 <= i < j < |c| ==> c[j] in Nbrs(sg, c[i])
  }

  /** No node of `ids` outside the clique can be added to it. */
  ghost predicate Maximal(sg: Subgraph, ids: seq<string>, c: seq<string>)
  {
    forall x :: x in ids && x !in c ==> !IsClique(sg, c + [x])
  }

  ghost predicate MaximalClique(sg: Subgraph, ids: seq<string>, c: seq<string>)
  {
    IsClique(sg, c) && Maximal(sg, ids, c)
  }

  /** The combinations of `cs` that are maximal cliques, in order. */
  ghost function Qualifying(sg: Subgraph, ids: seq<string>, cs: seq<seq<string>>): seq<seq<string>>
  {
    if cs == [] then []
    else
      var c := cs[|cs| - 1];
      Qualifying(sg, ids, cs[..|cs| - 1]) + (if MaximalClique(sg, ids, c) then [c] else [])
  }

  /** The maximal cliques found for the sizes `|ids|` down to `size + 1`. */
  ghost function CliquesAbove(sg: Subgraph, ids: seq<string>, size: nat): seq<seq<string>>
    decreases |ids| - size
  {
    if size >= |ids| then [] else CliquesAbove(sg, ids, size + 1) + Qualifying(sg, ids, Combos(ids, size + 1))
  }

  /** What `_find_max_cliques(subgraph, component)` returns, as node ids. */
  ghost function MaxCliques(sg: Subgraph, ids: seq<string>): seq<seq<string>>
  {
    CliquesAbove(sg, ids, 1)
  }

  lemma {:induction false} QualifyingIff(sg: Subgraph, ids: seq<string>, cs: seq<seq<string>>, c: seq<string>)
    ensures c in Qualifying(sg, ids, cs) <==> c in cs && MaximalClique(sg, ids, c)
  {
    if cs != [] {
      QualifyingIff(sg, ids, cs[..|cs| - 1], c);
      SplitLast(cs);
    }
  }

  lemma {:induction false} CliquesAboveIff(sg: Subgraph, ids: seq<string>, size: nat, c: seq<string>)
    ensures c in CliquesAbove(sg, ids, size) <==>
              size < |c| <= |ids| && c in Combos(ids, |c|) && MaximalClique(sg, ids, c)
    decreases |ids| - size
  {
    if size < |ids| {
      var cs := Combos(ids, size + 1);
      CliquesAboveIff(sg, ids, size + 1, c);
      QualifyingIff(sg, ids, cs, c);
      CombosFacts(ids, size + 1);
      assert c in cs ==> |c| == size + 1 by {
        if c in cs {
          assert ComboOf(ids, size + 1, c);
        }
      }
      assert CliquesAbove(sg, ids, size) == CliquesAbove(sg, ids, size + 1) + Qualifying(sg, ids, cs);
    }
  }

  /**
   * The cliques found are exactly the combinations of two or more of the
   * component's nodes that are cliques and cannot be extended by another of its nodes.
   */
  lemma MaxCliquesIff(sg: Subgraph, ids: seq<string>, c: seq<string>)
    ensures c in MaxCliques(sg, ids) <==>
              2 <= |c| <= |ids| && c in Combos(ids, |c|) && IsClique(sg, c) && Maximal(sg, ids, c)
  {
    CliquesAboveIff(sg, ids, 1, c);
  }

  /** Every clique found has two or more distinct members drawn from the component. */
  lemma MaxCliqueMembers(sg: Subgraph, ids: seq<string>, c: seq<string>)
    requires c in MaxCliques(sg, ids)
    ensures |c| >= 2 && (NoDuplicates(ids) ==> NoDuplicates(c)) && forall y :: y in c ==> y in ids
  {
    MaxCliquesIff(sg, ids, c);
    CombosFacts(ids, |c|);
  }

  /** In a symmetric subgraph the members of a clique are pairwise adjacent, both ways. */
  lemma CliquePairwise(sg: Subgraph, c: seq<string>)
    requires Symmetric(sg) && IsClique(sg, c)
    ensures forall i, j :: 0 <= i < |c| && 0 <= j < |c| && i != j ==> c[j] in Nbrs(sg, c[i])
  {
    forall i, j | 0 <= i < |c| && 0 <= j < |c| && i != j ensures c[j] in Nbrs(sg, c[i]) {
      if j < i {
        SymmetricAt(sg, c[j], c[i]);
      }
    }
  }

  /**
   * A clique maximal within a component closed under adjacency is maximal in
   * the whole subgraph: no node at all extends it.
   */
  lemma MaximalInSubgraph(sg: Subgraph, comp: seq<string>, c: seq<string>, x: string)
    requires Closed(sg, comp) && c != [] && (forall y :: y in c ==> y in comp)
    requires Maximal(sg, comp, c) && x !in c
    ensures !IsClique(sg, c + [x])
  {
    if x !in comp {
      assert x !in Nbrs(sg, c[0]);
      assert (c + [x])[0] == c[0] && (c + [x])[|c|] == x;
    }
  }

  /** The inner loop over `j`: is `c[j]` listed for `c[i]`, for every `j > i`? */
  method RowAdjacent(sg: Subgraph, c: seq<string>, i: nat) returns (ok: bool)
    requires i < |c|
    ensures ok <==> forall j :: i < j < |c| ==> c[j] in Nbrs(sg, c[i])
  {
    ok := true;
    var j := i + 1;
    while j < |c|
      invariant i + 1 <= j <= |c|
      invariant forall k :: i < k < j ==> c[k] in Nbrs(sg, c[i])
    {
      if c[j] !in Nbrs(sg, c[i]) {
        return false;
      }
      j := j + 1;
    }
  }

  /** The `is_clique` double loop, leaving at the first missing adjacency. */
  method CheckClique(sg: Subgraph, c: seq<string>) returns (ok: bool)
    ensures ok <==> IsClique(sg, c)
  {
    var i := 0;
    while i < |c|
      invariant 0 <= i <= |c|
      invariant forall a, b :: 0 <= a < i && a < b < |c| ==> c[b] in Nbrs(sg, c[a])
    {
      var row := RowAdjacent(sg, c, i);
      if !row {
        return false;
      }
      i := i + 1;
    }
    return true;
  }

  /** The `is_maximal` loop: try each node of the component not in the clique. */
  method CheckMaximal(sg: Subgraph, ids: seq<string>, c: seq<string>) returns (ok: bool)
    ensures ok <==> Maximal(sg, ids, c)
  {
    var k := 0;
    while k < |ids|
      invariant 0 <= k <= |ids|
      invariant forall m :: 0 <= m < k && ids[m] !in c ==> !IsClique(sg, c + [ids[m]])
    {
      if ids[k] !in c {
        var extended := CheckClique(sg, c + [ids[k]]);
        if extended {
          return false;
        }
      }
      k := k + 1;
    }
    return true;
  }

  /** One size of `_find_max_cliques`: keep each combination that is a maximal clique. */
  method FilterCliques(sg: Subgraph, ids: seq<string>, cs: seq<seq<string>>) returns (q: seq<seq<string>>)
    ensures q == Qualifying(sg, ids, cs)
  {
    q := [];
    var n := 0;
    while n < |cs|
      invariant 0 <= n <= |cs|
      invariant q == Qualifying(sg, ids, cs[..n])
    {
      var c := cs[n];
      assert cs[..n + 1][..n] == cs[..n] && cs[..n + 1][n] == c;
      var isClique := CheckClique(sg, c);
      if isClique {
        var isMaximal := CheckMaximal(sg, ids, c);
        if isMaximal {
          q := q + [c];
        }
      }
      n := n + 1;
    }
    assert cs[..n] == cs;
  }

  /** `_find_max_cliques`: sizes from `|ids|` down to 2, combinations in order. */
  method FindMaxCliques(sg: Subgraph, ids: seq<string>) returns (cliques: seq<seq<string>>)
    ensures cliques == MaxCliques(sg, ids)
  {
    cliques := [];
    var size := if ids == [] then 1 else |ids|;
    while size > 1
      invariant 1 <= size && (size <= |ids| || ids == [])
      invariant cliques == CliquesAbove(sg, ids, size)
    {
      cliques := AddCliquesOfSize(sg, ids, size, cliques);
      size := size - 1;
    }
    assert size == 1;
  }

  /** One pass of `_find_max_cliques`: the maximal cliques among the combinations of `size` ids are appended. */
  method AddCliquesOfSize(sg: Subgraph, ids: seq<string>, size: nat, cliques: seq<seq<string>>)
    returns (cliques': seq<seq<string>>)
    requires 1 < size <= |ids| && cliques == CliquesAbove(sg, ids, size)
    ensures cliques' == CliquesAbove(sg, ids, size - 1)
  {
    var q := FilterCliques(sg, ids, Combos(ids, size));
    cliques' := cliques + q;
  }

  // ----------------------------------------------------- encoded functions

  /** `id` is some non-empty prefix not ending in a digit, followed by the decimal digits of `n`. */
  predicate NumberedId(id: string, n: nat)
  {
    var d := NatToString(n);
    |id| > |d| && id[|id| - |d|..] == d && !IsDigit(id[|id| - |d| - 1])
  }

  /** The `n`-th function encoded carries an id numbered `n`, such as `COMBINATION_7`. */
  predicate Numbered(f: PrefabFunction, n: nat)
  {
    f.functionId.Some? && NumberedId(f.functionId.value, n)
  }

  lemma LabelNumbered(idPrefix: string, n: nat)
    requires |idPrefix| > 0 && !IsDigit(idPrefix[|idPrefix| - 1])
    ensures NumberedId(idPrefix + NatToString(n), n)
  {
    var id, d := idPrefix + NatToString(n), NatToString(n);
    assert id[|id| - |d|..] == d;
    assert id[|id| - |d| - 1] == idPrefix[|idPrefix| - 1];
  }

  /** Numbering by position gives every encoded function its own id. */
  lemma NumberedDistinct(fs: seq<PrefabFunction>)
    requires forall i :: 0 <= i < |fs| ==> Numbered(fs[i], i)
    ensures forall i, j :: 0 <= i < j < |fs| ==> fs[i].functionId != fs[j].functionId
  {
    forall i, j | 0 <= i < j < |fs| ensures fs[i].functionId != fs[j].functionId {
      var a, b := fs[i].functionId.value, fs[j].functionId.value;
      var p, q := a[..|a| - |NatToString(i)|], b[..|b| - |NatToString(j)|];
      assert a == p + NatToString(i);
      assert b == q + NatToString(j);
      if a == b {
        NumberedLabelInjective(p, q, i, j);
      }
    }
  }

  /** Every function in `fs` is numbered by its position. */
  predicate AllNumbered(fs: seq<PrefabFunction>)
  {
    fs == [] || (AllNumbered(fs[..|fs| - 1]) && Numbered(fs[|fs| - 1], |fs| - 1))
  }

  lemma {:induction false} AllNumberedAt(fs: seq<PrefabFunction>, i: nat)
    requires AllNumbered(fs) && i < |fs|
    ensures Numbered(fs[i], i)
    decreases |fs|
  {
    if i < |fs| - 1 {
      var init := fs[..|fs| - 1];
      AllNumberedAt(init, i);
      assert init[i] == fs[i];
    }
  }

  /** The fixed parts of the function one linkage type's cliques are encoded as. */
  /** A template whose id prefix can be followed by a number without ambiguity. */
  predicate Labelled(tp: Template)
  {
    |tp.idPrefix| > 0 && !IsDigit(tp.idPrefix[|tp.idPrefix| - 1])
  }

  datatype Template = Template(
    functionType: string,
    /** The id prefix, e.g. `COMBINATION_`. */
    idPrefix: string,
    namePrefix: string,
    tactic: string,
    execution: string,
    param: Param,
    /** The call that runs the units' steps, and what each unit's step appends to its class name. */
    runner: string,
    step: string,
    confidence: real)

  function TemplateOf(t: LinkageType): (tp: Template)
    requires t != Interaction
    ensures tp.functionType == t.Value() && 0.0 < tp.confidence <= 1.0
    ensures Labelled(tp)
  {
    match t
    case Combination =>
      Template("combination", "COMBINATION_", "coordinated_scouting_", "scouting", "concurrent", Param(Some("target_area"), Some("str"), None),
               "concurrent_execute", ".execute()", 0.85)
    case Association =>
      Template("association", "ASSOCIATION_", "frontline_combat_group_", "frontline_combat", "parallel", Param(Some("operation_type"), Some("str"), None),
               "parallel_execute", ".{operation_type}()", 0.8)
    case Invocation =>
      Template("invocation", "INVOCATION_", "tactical_sequence_", "tactical_sequence", "sequential", Param(Some("target_unit"), Some("str"), None),
               "sequential_execute", ".invoke({target_unit})", 0.9)
    case Dependency =>
      Template("dependency", "DEPENDENCY_", "strategic_deployment_", "strategic_deployment", "sequential",
               Param(Some("resource_allocation"), Some("Dict[str, int]"), None),
               "sequential_execute", ".execute({resource_allocation})", 0.95)
  }

  /** A targeting function for one interaction edge. */
  function InteractionFunction(src: string, tgt: string, confidence: real, n: nat): (f: PrefabFunction)
    ensures Numbered(f, n)
  {
    LabelNumbered("INTERACTION_", n);
    EmptyFunction().(
      functionId := Some("INTERACTION_" + NatToString(n)),
      functionType := Some("interaction"),
      name := Some("target_" + src + "_on_" + tgt),
      tacticCategory := Some("targeting"),
      sourceUnit := Some(src),
      targetUnit := Some(tgt),
      linkageType := Some("interaction"),
      executionType := Some("target_setting"),
      parameters := Some([Param(Some("target_unit_tag"), Some("int"), None)]),
      executionFlow := Some(["set_target(" + src + ", target_unit_tag)"]),
      confidence := Some(confidence))
  }

  function Steps(names: seq<string>, step: string): (r: seq<string>)
    ensures |r| == |names|
  {
    seq(|names|, i requires 0 <= i < |names| => names[i] + step)
  }

  /** The function one clique of units is encoded as, by the template of its linkage type. */
  function CliqueFunction(tp: Template, names: seq<string>, n: nat): (f: PrefabFunction)
    requires Labelled(tp)
    ensures Numbered(f, n)
  {
    LabelNumbered(tp.idPrefix, n);
    EmptyFunction().(
      functionId := Some(tp.idPrefix + NatToString(n)),
      functionType := Some(tp.functionType),
      name := Some(tp.namePrefix + Join("_", SortStrings(names))),
      tacticCategory := Some(tp.tactic),
      units := Some(names),
      linkageType := Some(tp.functionType),
      executionType := Some(tp.execution),
      parameters := Some([tp.param]),
      executionFlow := Some([tp.runner + "([" + Join(", ", Steps(names, tp.step)) + "])"]),
      confidence := Some(tp.confidence))
  }

  /** Every id of every group lies in `m`. */
  ghost predicate MembersIn(cs: seq<seq<string>>, m: set<string>)
  {
    forall i, y :: 0 <= i < |cs| && y in cs[i] ==> y in m
  }

  /**
   * `graph.get_node(id).class_name`.  Every id the encoder looks up is a node
   * of the graph (EncodedIdsAreNodes), so the empty name is never produced.
   */
  function ClassOf(nodes: Nodes, id: string): string
  {
    if id in nodes then nodes[id].className else ""
  }

  /** `[node.class_name for node in clique]`. */
  function ClassNames(nodes: Nodes, ids: seq<string>): (r: seq<string>)
    ensures |r| == |ids| && forall i :: 0 <= i < |ids| ==> r[i] == ClassOf(nodes, ids[i])
  {
    seq(|ids|, i requires 0 <= i < |ids| => ClassOf(nodes, ids[i]))
  }

  /** One function per clique, numbered from `start`; each names its units by class. */
  function CliqueFunctions(tp: Template, nodes: Nodes, cliques: seq<seq<string>>, start: nat): (r: seq<PrefabFunction>)
    requires Labelled(tp)
    ensures |r| == |cliques|
  {
    seq(|cliques|, i requires 0 <= i < |cliques| => CliqueFunction(tp, ClassNames(nodes, cliques[i]), start + i))
  }

  /** What the encoder reads of one interaction edge: its endpoints and its metadata's confidence. */
  datatype EdgeFacts = EdgeFacts(source: string, target: string, confidence: real)

  /** The facts read of each edge, in order. */
  function FactsOf(es: seq<GraphEdge>): (r: seq<EdgeFacts>)
    reads es
    ensures |r| == |es|
    ensures forall i :: 0 <= i < |es| ==>
              r[i] == EdgeFacts(es[i].sourceNodeId, es[i].targetNodeId, es[i].metadata.confidence)
  {
    if es == [] then []
    else
      var e := es[|es| - 1];
      FactsOf(es[..|es| - 1]) + [EdgeFacts(e.sourceNodeId, e.targetNodeId, e.metadata.confidence)]
  }

  /** The targeting functions of the edges, numbered from `start`. */
  function InteractionFunctions(nodes: Nodes, facts: seq<EdgeFacts>, start: nat): (r: seq<PrefabFunction>)
    ensures |r| == |facts|
  {
    if facts == [] then []
    else
      var n := |facts| - 1;
      var e := facts[n];
      InteractionFunctions(nodes, facts[..n], start) +
        [InteractionFunction(ClassOf(nodes, e.source), ClassOf(nodes, e.target), e.confidence, start + n)]
  }

  /** A partition of the subgraph's nodes into components closed under adjacency. */
  ghost predicate ComponentsOf(sg: Subgraph, comps: seq<seq<string>>)
  {
    (forall k :: k in Flatten(comps) <==> k in sg.adj)
    && NoDuplicates(Flatten(comps))
    && (forall i :: 0 <= i < |comps| ==> comps[i] != [] && Closed(sg, comps[i]))
  }

  /** The cliques of every component of two or more nodes, component by component. */
  ghost function AllCliques(sg: Subgraph, comps: seq<seq<string>>): seq<seq<string>>
  {
    if comps == [] then []
    else
      var comp := comps[|comps| - 1];
      AllCliques(sg, comps[..|comps| - 1]) + (if |comp| < 2 then [] else MaxCliques(sg, comp))
  }

  lemma {:induction false} FlattenPart(cs: seq<seq<string>>, k: nat)
    requires k < |cs|
    ensures forall x :: x in cs[k] ==> x in Flatten(cs)
    ensures NoDuplicates(Flatten(cs)) ==> NoDuplicates(cs[k])
  {
    var init := cs[..|cs| - 1];
    if k < |cs| - 1 {
      FlattenPart(init, k);
      assert init[k] == cs[k];
      if NoDuplicates(Flatten(cs)) {
        var f := Flatten(init);
        assert forall a, b :: 0 <= a < b < |f| ==> f[a] == Flatten(cs)[a] && f[b] == Flatten(cs)[b];
      }
    } else {
      var f := Flatten(init);
      assert forall a :: 0 <= a < |cs[k]| ==> cs[k][a] == Flatten(cs)[|f| + a];
    }
  }

  /** Every clique found lies among the nodes of the components searched. */
  lemma {:induction false} AllCliquesMembers(sg: Subgraph, comps: seq<seq<string>>, m: set<string>)
    requires MembersIn(comps, m)
    ensures MembersIn(AllCliques(sg, comps), m)
  {
    if comps != [] {
      var init := comps[..|comps| - 1];
      var comp := comps[|comps| - 1];
      assert forall i :: 0 <= i < |init| ==> init[i] == comps[i];
      AllCliquesMembers(sg, init, m);
      var a := AllCliques(sg, init);
      var b := if |comp| < 2 then [] else MaxCliques(sg, comp);
      forall c | c in b ensures forall y :: y in c ==> y in m {
        MaxCliqueMembers(sg, comp, c);
      }
      forall i, y | 0 <= i < |a + b| && y in (a + b)[i] ensures y in m {
        if i >= |a| {
          assert (a + b)[i] == b[i - |a|] && b[i - |a|] in b;
        } else {
          assert (a + b)[i] == a[i];
        }
      }
    }
  }

  lemma {:induction false} AllCliquesFrom(sg: Subgraph, comps: seq<seq<string>>, c: seq<string>)
    requires c in AllCliques(sg, comps)
    ensures exists k :: 0 <= k < |comps| && |comps[k]| >= 2 && c in MaxCliques(sg, comps[k])
  {
    var init := comps[..|comps| - 1];
    if c in AllCliques(sg, init) {
      AllCliquesFrom(sg, init, c);
      var k :| 0 <= k < |init| && |init[k]| >= 2 && c in MaxCliques(sg, init[k]);
      assert comps[k] == init[k];
    }
  }

  /**
   * Each clique encoded is a set of two or more distinct nodes of the subgraph,
   * pairwise adjacent, to which no other node of the subgraph can be added.
   */
  lemma AllCliquesFacts(sg: Subgraph, comps: seq<seq<string>>, c: seq<string>)
    requires Symmetric(sg) && ComponentsOf(sg, comps) && c in AllCliques(sg, comps)
    ensures |c| >= 2 && NoDuplicates(c) && IsClique(sg, c) && (forall y :: y in c ==> y in sg.adj)
    ensures forall x :: x !in c ==> !IsClique(sg, c + [x])
  {
    AllCliquesFrom(sg, comps, c);
    var k :| 0 <= k < |comps| && |comps[k]| >= 2 && c in MaxCliques(sg, comps[k]);
    FlattenPart(comps, k);
    MaxCliqueMembers(sg, comps[k], c);
    MaxCliquesIff(sg, comps[k], c);
    forall x | x !in c ensures !IsClique(sg, c + [x]) {
      MaximalInSubgraph(sg, comps[k], c, x);
    }
  }

  /** A node of the subgraph is an endpoint of some pair. */
  lemma {:induction false} SubgraphKeysEndpoints(pairs: seq<(string, string)>, k: string)
    requires k in SubgraphOf(pairs).adj
    ensures exists i :: 0 <= i < |pairs| && (pairs[i].0 == k || pairs[i].1 == k)
  {
    var init := pairs[..|pairs| - 1];
    var p := pairs[|pairs| - 1];
    if k != p.0 && k != p.1 {
      SubgraphKeysEndpoints(init, k);
      var i :| 0 <= i < |init| && (init[i].0 == k || init[i].1 == k);
      assert pairs[i] == init[i];
    } else {
      assert pairs[|pairs| - 1] == p;
    }
  }

  /** Every node of the subgraph built from stored edges is a node of the graph. */
  lemma SubgraphKeysStored(nodes: Nodes, es: seq<GraphEdge>)
    requires forall i :: 0 <= i < |es| ==> es[i].sourceNodeId in nodes && es[i].targetNodeId in nodes
    ensures forall k :: k in SubgraphOf(Pairs(es)).adj ==> k in nodes
  {
    var pairs := Pairs(es);
    forall k | k in SubgraphOf(pairs).adj ensures k in nodes {
      SubgraphKeysEndpoints(pairs, k);
      var i :| 0 <= i < |pairs| && (pairs[i].0 == k || pairs[i].1 == k);
      assert pairs[i] == (es[i].sourceNodeId, es[i].targetNodeId);
    }
  }

  /** The subgraph of the graph's edges of type `t`. */
  ghost function SubgraphFor(g: ProgramLinkageGraph, t: LinkageType): Subgraph
    requires g.Valid()
    reads g`nodes, g`nodeOrder, g`edges, g`adjacency, g`typeIndex
  {
    SubgraphOf(Pairs(g.EdgesByType(t)))
  }

  /**
   * What one clique stage found: the edges of its type, their components, the
   * cliques of those, and the number the stage's first function was given.
   */
  datatype Stage = Stage(edges: seq<GraphEdge>, comps: seq<seq<string>>, cliques: seq<seq<string>>, first: nat)

  ghost predicate Staged(st: Stage)
  {
    var sg := SubgraphOf(Pairs(st.edges));
    ComponentsOf(sg, st.comps) && st.cliques == AllCliques(sg, st.comps)
  }

  /**
   * Every node id the encoder looks up is a node of the graph: the endpoints
   * of the interaction edges, and every member of every clique found.
   */
  lemma EncodedIdsAreNodes(g: ProgramLinkageGraph, t: LinkageType, comps: seq<seq<string>>)
    requires g.Valid() && ComponentsOf(SubgraphFor(g, t), comps)
    ensures forall i :: 0 <= i < |FactsOf(g.EdgesByType(Interaction))| ==>
              FactsOf(g.EdgesByType(Interaction))[i].source in g.nodes &&
              FactsOf(g.EdgesByType(Interaction))[i].target in g.nodes
    ensures MembersIn(AllCliques(SubgraphFor(g, t), comps), g.nodes.Keys)
  {
    var es := g.EdgesByType(t);
    SubgraphKeysStored(g.nodes, es);
    FlattenMembers(SubgraphFor(g, t), comps, g.nodes.Keys);
    AllCliquesMembers(SubgraphFor(g, t), comps, g.nodes.Keys);
  }

  lemma FlattenMembers(sg: Subgraph, comps: seq<seq<string>>, m: set<string>)
    requires (forall k :: k in Flatten(comps) ==> k in sg.adj) && (forall k :: k in sg.adj ==> k in m)
    ensures MembersIn(comps, m)
  {
    forall i, y | 0 <= i < |comps| && y in comps[i] ensures y in m {
      FlattenPart(comps, i);
    }
  }

  class PrefabFunctionEncoder {
    const graph: ProgramLinkageGraph
    var prefabFunctions: seq<PrefabFunction>
    /** The number of functions encoded so far; the next id's number. */
    var functionCounter: nat

    ghost predicate Valid()
      reads this`prefabFunctions, this`functionCounter
    {
      functionCounter == |prefabFunctions| && AllNumbered(prefabFunctions)
    }

    constructor(graph: ProgramLinkageGraph)
      ensures this.graph == graph && prefabFunctions == [] && functionCounter == 0 && Valid()
    {
      this.graph := graph;
      prefabFunctions := [];
      functionCounter := 0;
    }

    /** Appends `f` as the next function; `f` must carry the next number. */
    method Append(f: PrefabFunction)
      requires Valid() && Numbered(f, functionCounter)
      modifies this`prefabFunctions, this`functionCounter
      ensures Valid() && prefabFunctions == old(prefabFunctions) + [f]
    {
      ghost var before := prefabFunctions;
      prefabFunctions := prefabFunctions + [f];
      functionCounter := functionCounter + 1;
      assert prefabFunctions[..|prefabFunctions| - 1] == before;
    }

    /**
     * `_encode_interaction_functions`: one targeting function per interaction
     * edge, in the order the type index lists them.
     */
    method EncodeInteractionFunctions() returns (ghost facts: seq<EdgeFacts>)
      requires Valid() && graph.Valid()
      modifies this`prefabFunctions, this`functionCounter
      ensures Valid() && facts == old(FactsOf(graph.EdgesByType(Interaction)))
      ensures prefabFunctions == old(prefabFunctions) + InteractionFunctions(graph.nodes, facts, old(functionCounter))
    {
      var es := graph.EdgesByType(Interaction);
      var snapshot := FactsOf(es);
      facts := snapshot;
      EncodeEdges(graph.nodes, snapshot);
    }

    /**
     * The loop of `_encode_interaction_functions`, over the endpoints and
     * confidence of each edge in turn.
     */
    method EncodeEdges(nodes: Nodes, facts: seq<EdgeFacts>)
      requires Valid()
      modifies this`prefabFunctions, this`functionCounter
      ensures Valid()
      ensures prefabFunctions == old(prefabFunctions) + InteractionFunctions(nodes, facts, old(functionCounter))
    {
      ghost var p0, c0 := prefabFunctions, functionCounter;
      var i := 0;
      while i < |facts|
        invariant 0 <= i <= |facts| && Valid()
        invariant prefabFunctions == p0 + InteractionFunctions(nodes, facts[..i], c0)
      {
        var e := facts[i];
        var f := InteractionFunction(ClassOf(nodes, e.source), ClassOf(nodes, e.target), e.confidence, functionCounter);
        InteractionStep(nodes, facts, i, c0);
        Concat3(p0, InteractionFunctions(nodes, facts[..i], c0), [f]);
        Append(f);
        i := i + 1;
      }
      assert facts[..i] == facts;
    }

    /** Encodes each clique of one component in turn, given its units' names. */
    method EncodeCliques(tp: Template, nodes: Nodes, cliques: seq<seq<string>>)
      requires Valid() && Labelled(tp)
      modifies this`prefabFunctions, this`functionCounter
      ensures Valid()
      ensures prefabFunctions == old(prefabFunctions) + CliqueFunctions(tp, nodes, cliques, old(functionCounter))
    {
      ghost var p0, c0 := prefabFunctions, functionCounter;
      var m := 0;
      while m < |cliques|
        invariant 0 <= m <= |cliques| && Valid()
        invariant prefabFunctions == p0 + CliqueFunctions(tp, nodes, cliques[..m], c0)
      {
        var names := ClassNames(nodes, cliques[m]);
        var f := CliqueFunction(tp, names, functionCounter);
        CliqueStep(tp, nodes, cliques, m, c0);
        Concat3(p0, CliqueFunctions(tp, nodes, cliques[..m], c0), [f]);
        Append(f);
        m := m + 1;
      }
      assert cliques[..m] == cliques;
    }

    /**
     * `_encode_combination_functions` and its three siblings for association,
     * invocation and dependency: the cliques of every component of two or more
     * nodes, in the order the components and cliques are found.  The test
     * `len(clique) < 2` never holds (MaxCliqueMembers) and is left out.
     */
    method EncodeCliqueFunctions(t: LinkageType) returns (ghost st: Stage)
      requires t != Interaction && Valid() && graph.Valid()
      modifies this`prefabFunctions, this`functionCounter
      ensures Valid() && Staged(st) && st.edges == old(graph.EdgesByType(t)) && st.first == old(functionCounter)
      ensures prefabFunctions == old(prefabFunctions) + CliqueFunctions(TemplateOf(t), old(graph.nodes), st.cliques, st.first)
    {
      var edges := graph.EdgesByType(t);
      var sg := BuildSubgraph(edges);
      SubgraphOfFacts(Pairs(edges));
      SubgraphOfSymmetric(Pairs(edges));
      var components := FindConnectedComponents(sg);
      st := Stage(edges, components, AllCliques(sg, components), functionCounter);
      EncodeComponents(TemplateOf(t), graph.nodes, sg, components);
    }

    /** The loop over the components, and for each the loop over its cliques. */
    method EncodeComponents(tp: Template, nodes: Nodes, sg: Subgraph, comps: seq<seq<string>>)
      requires Valid() && Labelled(tp)
      modifies this`prefabFunctions, this`functionCounter
      ensures Valid()
      ensures prefabFunctions == old(prefabFunctions) + CliqueFunctions(tp, nodes, AllCliques(sg, comps), old(functionCounter))
    {
      ghost var p0, c0 := prefabFunctions, functionCounter;
      var k := 0;
      while k < |comps|
        invariant 0 <= k <= |comps| && Valid()
        invariant prefabFunctions == p0 + CliqueFunctions(tp, nodes, AllCliques(sg, comps[..k]), c0)
      {
        ghost var before := AllCliques(sg, comps[..k]);
        var comp := comps[k];
        var cliques := [];
        if |comp| >= 2 {
          cliques := FindMaxCliques(sg, comp);
        }
        ghost var done, more := CliqueFunctions(tp, nodes, before, c0), CliqueFunctions(tp, nodes, cliques, c0 + |before|);
        assert functionCounter == c0 + |before|;
        EncodeCliques(tp, nodes, cliques);
        assert prefabFunctions == (p0 + done) + more;
        ComponentStep(sg, comps, k, cliques);
        CliqueFunctionsAppend(tp, nodes, before, cliques, c0);
        Concat3(p0, done, more);
        k := k + 1;
      }
      assert comps[..k] == comps;
    }

    /**
     * `encode_prefab_functions`: interaction functions first, then the clique
     * functions of combination, association, invocation and dependency links.
     */
    method EncodePrefabFunctions()
      returns (fs: seq<PrefabFunction>, ghost facts: seq<EdgeFacts>,
               ghost combination: Stage, ghost association: Stage, ghost invocation: Stage, ghost dependency: Stage)
      requires Valid() && graph.Valid()
      modifies this`prefabFunctions, this`functionCounter
      ensures Valid() && fs == prefabFunctions
      ensures facts == old(FactsOf(graph.EdgesByType(Interaction)))
      ensures Staged(combination) && combination.edges == old(graph.EdgesByType(Combination))
      ensures Staged(association) && association.edges == old(graph.EdgesByType(Association))
      ensures Staged(invocation) && invocation.edges == old(graph.EdgesByType(Invocation))
      ensures Staged(dependency) && dependency.edges == old(graph.EdgesByType(Dependency))
      ensures combination.first == old(functionCounter) + |facts|
      ensures association.first == combination.first + |combination.cliques|
      ensures invocation.first == association.first + |association.cliques|
      ensures dependency.first == invocation.first + |invocation.cliques|
      ensures var nodes := old(graph.nodes);
              prefabFunctions == old(prefabFunctions) + InteractionFunctions(nodes, facts, old(functionCounter)) +
                CliqueFunctions(TemplateOf(Combination), nodes, combination.cliques, combination.first) +
                CliqueFunctions(TemplateOf(Association), nodes, association.cliques, association.first) +
                CliqueFunctions(TemplateOf(Invocation), nodes, invocation.cliques, invocation.first) +
                CliqueFunctions(TemplateOf(Dependency), nodes, dependency.cliques, dependency.first)
    {
      ghost var nodes, start, p0 := graph.nodes, functionCounter, prefabFunctions;
      facts := EncodeInteractionFunctions();
      assert graph.nodes == nodes;
      ghost var r1 := prefabFunctions;
      combination := EncodeCliqueFunctions(Combination);
      assert graph.nodes == nodes;
      ghost var r2 := prefabFunctions;
      association := EncodeCliqueFunctions(Association);
      assert graph.nodes == nodes;
      ghost var r3 := prefabFunctions;
      invocation := EncodeCliqueFunctions(Invocation);
      assert graph.nodes == nodes;
      ghost var r4 := prefabFunctions;
      dependency := EncodeCliqueFunctions(Dependency);
      StagesInOrder(nodes, facts, combination.cliques, association.cliques, invocation.cliques, dependency.cliques,
                    start, combination.first, association.first, invocation.first, dependency.first,
                    p0, r1, r2, r3, r4, prefabFunctions);
      fs := prefabFunctions;
    }
  }

  lemma CliqueFunctionsAppend(tp: Template, nodes: Nodes, a: seq<seq<string>>, b: seq<seq<string>>, start: nat)
    requires Labelled(tp)
    ensures CliqueFunctions(tp, nodes, a + b, start) ==
              CliqueFunctions(tp, nodes, a, start) + CliqueFunctions(tp, nodes, b, start + |a|)
  {
    var l, r := CliqueFunctions(tp, nodes, a + b, start), CliqueFunctions(tp, nodes, a, start) + CliqueFunctions(tp, nodes, b, start + |a|);
    forall i | 0 <= i < |l| ensures l[i] == r[i] {
      if i < |a| {
        assert (a + b)[i] == a[i];
      } else {
        assert (a + b)[i] == b[i - |a|];
      }
    }
  }

  /**
   * The five stages, each numbered on from where the one before stopped,
   * append up to the whole encoding.
   */
  lemma StagesInOrder(nodes: Nodes, facts: seq<EdgeFacts>, q1: seq<seq<string>>, q2: seq<seq<string>>,
                      q3: seq<seq<string>>, q4: seq<seq<string>>, start: nat, n1: nat, n2: nat, n3: nat, n4: nat,
                      p0: seq<PrefabFunction>, r1: seq<PrefabFunction>, r2: seq<PrefabFunction>,
                      r3: seq<PrefabFunction>, r4: seq<PrefabFunction>, r5: seq<PrefabFunction>)
    requires start == |p0| && n1 == |r1| && n2 == |r2| && n3 == |r3| && n4 == |r4|
    requires r1 == p0 + InteractionFunctions(nodes, facts, start)
    requires r2 == r1 + CliqueFunctions(TemplateOf(Combination), nodes, q1, n1)
    requires r3 == r2 + CliqueFunctions(TemplateOf(Association), nodes, q2, n2)
    requires r4 == r3 + CliqueFunctions(TemplateOf(Invocation), nodes, q3, n3)
    requires r5 == r4 + CliqueFunctions(TemplateOf(Dependency), nodes, q4, n4)
    ensures n1 == start + |facts| && n2 == n1 + |q1| && n3 == n2 + |q2| && n4 == n3 + |q3|
    ensures r5 == p0 + InteractionFunctions(nodes, facts, start) +
              CliqueFunctions(TemplateOf(Combination), nodes, q1, n1) +
              CliqueFunctions(TemplateOf(Association), nodes, q2, n2) +
              CliqueFunctions(TemplateOf(Invocation), nodes, q3, n3) +
              CliqueFunctions(TemplateOf(Dependency), nodes, q4, n4)
  {
  }

  lemma Concat3<T>(a: seq<T>, b: seq<T>, c: seq<T>)
    ensures (a + b) + c == a + (b + c)
  {
  }

  lemma InteractionStep(nodes: Nodes, facts: seq<EdgeFacts>, i: nat, start: nat)
    requires i < |facts|
    ensures InteractionFunctions(nodes, facts[..i + 1], start) ==
              InteractionFunctions(nodes, facts[..i], start) +
              [InteractionFunction(ClassOf(nodes, facts[i].source), ClassOf(nodes, facts[i].target), facts[i].confidence, start + i)]
  {
    assert facts[..i + 1][..i] == facts[..i] && facts[..i + 1][i] == facts[i];
  }

  lemma CliqueStep(tp: Template, nodes: Nodes, cliques: seq<seq<string>>, m: nat, start: nat)
    requires Labelled(tp) && m < |cliques|
    ensures CliqueFunctions(tp, nodes, cliques[..m + 1], start) ==
              CliqueFunctions(tp, nodes, cliques[..m], start) + [CliqueFunction(tp, ClassNames(nodes, cliques[m]), start + m)]
  {
    assert cliques[..m + 1] == cliques[..m] + [cliques[m]];
    CliqueFunctionsAppend(tp, nodes, cliques[..m], [cliques[m]], start);
  }

  /** One more component adds its cliques at the end. */
  lemma ComponentStep(sg: Subgraph, comps: seq<seq<string>>, k: nat, cliques: seq<seq<string>>)
    requires k < |comps|
    requires cliques == (if |comps[k]| < 2 then [] else MaxCliques(sg, comps[k]))
    ensures AllCliques(sg, comps[..k + 1]) == AllCliques(sg, comps[..k]) + cliques
  {
    var pre := comps[..k + 1];
    assert pre[..k] == comps[..k] && pre[k] == comps[k];
  }

  /** Every function encoded has its own id. */
  lemma EncodedIdsDistinct(e: PrefabFunctionEncoder)
    requires e.Valid()
    ensures forall i, j :: 0 <= i < j < |e.prefabFunctions| ==>
              e.prefabFunctions[i].functionId != e.prefabFunctions[j].functionId
  {
    forall i | 0 <= i < |e.prefabFunctions| ensures Numbered(e.prefabFunctions[i], i) {
      AllNumberedAt(e.prefabFunctions, i);
    }
    NumberedDistinct(e.prefabFunctions);
  }
}
