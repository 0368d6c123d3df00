# A verified model of the autodsl_affordance prefab-function core

autodsl_affordance builds a *program linkage graph* over StarCraft II unit
classes and turns it into *prefab functions*: reusable tactics (focus fire, a
combined push, a support pairing) that a language-model agent can be offered
during a game. This project models the bookkeeping at the heart of that
system in Dafny and proves what each piece promises.

- **Linkage graph** (`edge.dfy`, `graph_builder.dfy`). Edges carry one of five
  linkage types and a canonical id: undirected edges (interaction, combination
  and association by default) get an id and an equality that ignore endpoint
  order. The `ProgramLinkageGraph` class keeps its node and edge dictionaries
  together with a per-node list of incident edge ids and a per-type index. The
  invariant `GraphInv` says those indices list exactly the graph's edges.
  Every add and remove, including the cascading `remove_node`, keeps it. The
  depth-bounded breadth-first `find_path` is proved to return a real path.
- **Traversal strategy** (`traversal_strategy.dfy`). The five phases
  (interaction, combination, association, dependency, invocation) are
  modelled with the rules that pair unit nodes in each phase. No rule emits an
  edge already in the graph, and every edge found is tagged with its phase.
  Only the role-association rule can emit a self-loop, for a node that lists
  one role twice (see Findings).
- **Prefab function encoder** (`encoder.dfy`). It builds a symmetric subgraph
  per linkage type and splits it into components that partition its nodes.
  Each component is closed under adjacency and connected: it lists its nodes
  in an order where each one neighbours an earlier one, and its root is the
  first key no earlier component holds. Every clique it finds is maximal and
  pairwise adjacent. Functions are
  numbered with distinct ids.
- **Function repository** (`function_repository.dfy`). This is the
  linkage-graph `PrefabFunctionManager`: a keyed store with four secondary
  indices, kept consistent by load, add and remove. It also models the
  intersection search, the consistency validation, the statistics and the
  ranking of optimal functions.
- **Prefab system** (`handler.dfy`, `prefab_manager.dfy`,
  `performance_monitor.dfy`, `prefab_loader.dfy`):
  - retrieval and deduplication of candidate functions;
  - hard filters, scoring and top-k selection;
  - the cooldown table and execution history;
  - clamped confidence feedback;
  - the manager's first-in-first-out result cache and running-mean success
    rate;
  - the monitor's append-only histories and summary;
  - the loader's search predicates and file reshaping.
- **Utilities** (`json_loader.dfy`, `migrate.dfy`). The unit-data loader's
  regular-expression extractors are written as scanners and proved against
  text builders (round trips). The migration script's in-place
  standardisation of function dictionaries is also modelled.
- **Units** (`sentry.dfy`, `immortal.dfy`, `oracle.dfy`, `medivac.dfy`,
  `high_templar.dfy`, with `unit_common.dfy`). Each is a class whose ability
  methods are proved to follow a state-transition function. Lemmas state the
  energy, cooldown, capacity and damage-mitigation guarantees.

Shared vocabulary lives in `common.dfy`: Option, Result, JSON values, ASCII
string helpers and a stable descending sort. The shared prefab-function
record lives in `prefab_record.dfy`.

Python floats are modelled as exact `real` numbers. Python integers are
`int`. A JSON dictionary of a prefab function becomes a record with one
`Option` field per key the code reads, so a missing key and a key holding
`None` are the same here. Logging, the clock and identifier generation are
parameters or left out, as listed below.

## Model

| member | source | states |
|---|---|---|
| LinkageEdge.LinkageType.Value | autodsl_affordance/core/linkage_graph/edge.py:5-14 | each linkage type's string value parses back to that same type |
| LinkageEdge.Direction.Value | autodsl_affordance/core/linkage_graph/edge.py:16-19 | each direction's string value parses back to that same direction |
| LinkageEdge.DefaultDirection | autodsl_affordance/core/linkage_graph/edge.py:50-56 | with no direction given, interaction, combination and association edges are undirected and invocation and dependency edges directed (both directions of each) |
| LinkageEdge.SortedPair | autodsl_affordance/core/linkage_graph/edge.py:60 | sorting two ids yields the same two ids, smaller first |
| LinkageEdge.SortedPairSymmetric | autodsl_affordance/core/linkage_graph/edge.py:60 | the sorted pair does not depend on argument order |
| LinkageEdge.UndirectedEdgeIdSymmetric | autodsl_affordance/core/linkage_graph/edge.py:59-61 | an undirected edge id is the same for both orders of the endpoints |
| LinkageEdge.DirectedEdgeIdOrder | autodsl_affordance/core/linkage_graph/edge.py:62-63 | a directed edge id starts with the source id and ends with the target id |
| LinkageEdge.UndirectedSameEdgeIff | autodsl_affordance/core/linkage_graph/edge.py:183-185 | two undirected edges are equal iff they have the same type and the same endpoint set |
| LinkageEdge.SameEdgeSameHash | autodsl_affordance/core/linkage_graph/edge.py:177-201 | equal edges have equal hashes |
| LinkageEdge.SameEdgeIffSameHash | autodsl_affordance/core/linkage_graph/edge.py:177-201 | edge equality holds exactly when the hashed tuples coincide |
| LinkageEdge.SameEdgeEquivalence | autodsl_affordance/core/linkage_graph/edge.py:177-191 | edge equality is reflexive, symmetric and transitive |
| LinkageEdge.ApplyPatchLaws | autodsl_affordance/core/linkage_graph/edge.py:121-125 | an empty metadata update changes nothing and applying an update twice equals applying it once |
| LinkageEdge.WithEvidenceLaws | autodsl_affordance/core/linkage_graph/edge.py:116-119 | adding evidence records it, keeps the earlier evidence as a prefix, is idempotent and never creates a duplicate |
| LinkageEdge.GraphEdge.constructor | autodsl_affordance/core/linkage_graph/edge.py:40-87 | a new edge keeps its endpoints, type, description and methods, takes the given or default direction, the id of that direction, and the metadata with the keyword overrides applied |
| LinkageEdge.GraphEdge.GetOtherNode | autodsl_affordance/core/linkage_graph/edge.py:108-114 | returns None exactly for a non-endpoint; otherwise the returned node and the argument are the two endpoints |
| LinkageEdge.GraphEdge.AddEvidence | autodsl_affordance/core/linkage_graph/edge.py:116-119 | the evidence list becomes the list with the new item added if absent; other metadata is unchanged |
| LinkageEdge.GraphEdge.UpdateMetadata | autodsl_affordance/core/linkage_graph/edge.py:121-125 | the metadata becomes the old metadata with exactly the given attributes overwritten |
| LinkageEdge.GetOtherNodeInvolution | autodsl_affordance/core/linkage_graph/edge.py:108-114 | for an endpoint, the other endpoint is an endpoint whose other endpoint is the original node |
| LinkageEdge.EqualEdgesHashEqual | autodsl_affordance/core/linkage_graph/edge.py:177-201 | two edge objects that compare equal have equal hash values |
| LinkageEdge.DecodeEncodeStrings | autodsl_affordance/core/linkage_graph/edge.py:156-163 | decoding an encoded evidence list gives back the list |
| LinkageEdge.DecodeEncodeMetadata | autodsl_affordance/core/linkage_graph/edge.py:138-145 | decoding the metadata dictionary that to_dict wrote gives back the metadata |
| LinkageEdge.FromDictEncode | autodsl_affordance/core/linkage_graph/edge.py:149-175 | decoding the dictionary to_dict writes gives back the constructor arguments |
| LinkageEdge.ToDictRoundTrip | autodsl_affordance/core/linkage_graph/edge.py:127-175 | from_dict(to_dict(e)) rebuilds the endpoints, type, direction, description, methods and metadata of e, and so its edge id |
| LinkageEdge.FromDictEdge | autodsl_affordance/core/linkage_graph/edge.py:148-175 | fails exactly when the dictionary does not decode; otherwise returns a fresh valid edge built from the decoded fields |
| TraversalStrategy.Phase.Value | autodsl_affordance/core/linkage_graph/traversal_strategy.py:12-16 | every phase's value lies between 1 and 5 |
| TraversalStrategy.IndexOfPhase | autodsl_affordance/core/linkage_graph/traversal_strategy.py:23-29 | a phase's position in the traversal order is one less than its value |
| TraversalStrategy.NextPhase | autodsl_affordance/core/linkage_graph/traversal_strategy.py:40-48 | no current phase gives phase 1; the last phase gives None and no other phase does; otherwise the value goes up by one |
| TraversalStrategy.PhaseSequence | autodsl_affordance/core/linkage_graph/traversal_strategy.py:40-48 | the phases follow one another 1, 2, 3, 4, 5 and then None |
| TraversalStrategy.LinkageTypesFor | autodsl_affordance/core/linkage_graph/traversal_strategy.py:32-38 | every phase maps to exactly one linkage type |
| TraversalStrategy.PhaseTypeInjective | autodsl_affordance/core/linkage_graph/traversal_strategy.py:32-38 | different phases map to different linkage types |
| TraversalStrategy.Rule.Confidence | autodsl_affordance/core/linkage_graph/traversal_strategy.py:54-546 | every rule's edge confidence lies in [0, 1] |
| TraversalStrategy.KnownIffEqualExists | autodsl_affordance/core/linkage_graph/traversal_strategy.py:79-80 | membership in the set of existing edges holds iff some existing edge equals the new one under edge equality |
| TraversalStrategy.ScanTargetsLoop | autodsl_affordance/core/linkage_graph/traversal_strategy.py:64-80 | the loop over target nodes emits exactly the specified edges for one source item |
| TraversalStrategy.ScanItemsLoop | autodsl_affordance/core/linkage_graph/traversal_strategy.py:62-97 | the loop over a source's items emits exactly the specified edges for that source |
| TraversalStrategy.ScanPass | autodsl_affordance/core/linkage_graph/traversal_strategy.py:62-143 | the loop over all source nodes emits exactly the specified edges of a rule pass |
| TraversalStrategy.Bound | autodsl_affordance/core/linkage_graph/traversal_strategy.py:333-334 | the pair bound is min(5, group size) when limited, never above the group size |
| TraversalStrategy.GroupPairsDistinct | autodsl_affordance/core/linkage_graph/traversal_strategy.py:305-345 | every group edge has the pass's type, joins two different nodes and is not already existing |
| TraversalStrategy.RowLoop | autodsl_affordance/core/linkage_graph/traversal_strategy.py:307-318 | the inner loop over j emits exactly the pairs (i, j) for j above i that are not already existing |
| TraversalStrategy.AllPairsLoop | autodsl_affordance/core/linkage_graph/traversal_strategy.py:306-318 | the double loop over i < j emits exactly the specified pairs of a group |
| TraversalStrategy.PairGroups | autodsl_affordance/core/linkage_graph/traversal_strategy.py:305-345 | the loop over groups emits exactly the pairs of every group in order |
| TraversalStrategy.FacilityGroupsDistinct | autodsl_affordance/core/linkage_graph/traversal_strategy.py:287-303 | each facility group lists distinct node ids, all of them graph nodes |
| TraversalStrategy.RoleGroupsDistinct | autodsl_affordance/core/linkage_graph/traversal_strategy.py:320-328 | the corrected role groups list each node id at most once |
| TraversalStrategy.RoleGroupsAsWrittenSelfLoop | autodsl_affordance/core/linkage_graph/traversal_strategy.py:320-345 | as written, a node listing one role twice produces an association edge from that node to itself |
| TraversalStrategy.ScanPhaseFacts | autodsl_affordance/core/linkage_graph/traversal_strategy.py:62-80 | every scanned edge joins two different graph nodes, has the pass's type and is not already existing |
| TraversalStrategy.PhaseSpecsFacts | autodsl_affordance/core/linkage_graph/traversal_strategy.py:550-578 | every edge a phase proposes has the phase's linkage type and equals no existing edge; it joins two different nodes in every phase, and in phase 3 whenever no node lists a role twice |
| TraversalStrategy.FacilityPairsWithinGroup | autodsl_affordance/core/linkage_graph/traversal_strategy.py:305-318 | every facility association edge pairs positions i < j of one facility group |
| TraversalStrategy.RolePairsWithinFirstFive | autodsl_affordance/core/linkage_graph/traversal_strategy.py:320-345 | every role association edge pairs positions i < j < 5 of one role group as the code builds it, a node appearing once per role it lists |
| TraversalStrategy.RoleGroupsAgree | autodsl_affordance/core/linkage_graph/traversal_strategy.py:320-328 | when node ids are distinct and no node lists a role twice, the groups as built equal the groups holding each node once |
| TraversalStrategy.RolePairsIntendedDistinct | autodsl_affordance/core/linkage_graph/traversal_strategy.py:320-345 | with each node at most once per role group, the role association rule never pairs a node with itself |
| TraversalStrategy.IdentifyLinks | autodsl_affordance/core/linkage_graph/traversal_strategy.py:561-578 | dispatches on the phase and returns exactly the edges that phase's rules specify, phase 3 pairing the role groups as the code builds them |
| TraversalStrategy.BuildEdges | autodsl_affordance/core/linkage_graph/traversal_strategy.py:69-76 | builds one fresh, distinct edge object per proposed edge, with its endpoints, linkage type, source method and confidence |
| TraversalStrategy.TagRound | autodsl_affordance/core/linkage_graph/traversal_strategy.py:580-582 | every new edge's discovered_in_round is set to the round and nothing else of its metadata changes |
| TraversalStrategy.ExecutePhase | autodsl_affordance/core/linkage_graph/traversal_strategy.py:550-584 | returns fresh, distinct edges matching the phase's proposals one by one (phase 3 from the role groups as built), each tagged with discovered_in_round equal to the phase value |
| LinkageGraph.ListedEdges | autodsl_affordance/core/linkage_graph/graph_builder.py:195-207 | under the adjacency invariant a node's list holds exactly the stored edges that touch it |
| LinkageGraph.AttachEdgeDegree | autodsl_affordance/core/linkage_graph/graph_builder.py:109-111 | adding an edge lengthens each endpoint's list by one (by two for a self-loop) and no other list |
| LinkageGraph.AddNodeInv | autodsl_affordance/core/linkage_graph/graph_builder.py:68-74 | adding an absent node with an empty list keeps the graph invariant (well-formed edges, exact adjacency and type index, no duplicate triples) |
| LinkageGraph.AddEdgeInv | autodsl_affordance/core/linkage_graph/graph_builder.py:109-117 | adding an accepted edge to the map, both endpoint lists and the type index keeps the graph invariant |
| LinkageGraph.RemoveEdgeInv | autodsl_affordance/core/linkage_graph/graph_builder.py:156-168 | a stored edge is listed at both endpoints and once in its type index, and removing it from all of them keeps the graph invariant |
| LinkageGraph.DropNodeInv | autodsl_affordance/core/linkage_graph/graph_builder.py:140-142 | once no edge touches a node, deleting the node and its list keeps the graph invariant |
| LinkageGraph.NeighborSymmetric | autodsl_affordance/core/linkage_graph/graph_builder.py:223-244 | an edge listed at a node leads to a neighbour that lists the same edge and leads back |
| LinkageGraph.AddEachGrows | autodsl_affordance/core/linkage_graph/graph_builder.py:304-307 | adding a phase's edges keeps every earlier edge and adds only edges of the phase |
| LinkageGraph.PhasesThroughNext | autodsl_affordance/core/linkage_graph/graph_builder.py:308-311 | recording the next phase adds exactly that phase to the recorded history |
| LinkageGraph.PhaseOutputHolds | autodsl_affordance/core/linkage_graph/graph_builder.py:293-300 | edges built from a phase's proposals and tagged with its round are that phase's output: its type, its round, and no self-loop except a phase-3 edge of a node that lists a role twice |
| LinkageGraph.ProgramLinkageGraph.constructor | autodsl_affordance/core/linkage_graph/graph_builder.py:35-57 | a new graph is empty, has no history, no current phase and is not complete |
| LinkageGraph.ProgramLinkageGraph.AddNode | autodsl_affordance/core/linkage_graph/graph_builder.py:59-75 | succeeds iff the id is new; then stores the node with an empty edge list; otherwise changes nothing |
| LinkageGraph.ProgramLinkageGraph.HasSameTriple | autodsl_affordance/core/linkage_graph/graph_builder.py:100-106 | reports whether some stored edge has the same source, target and linkage type |
| LinkageGraph.ProgramLinkageGraph.AddEdge | autodsl_affordance/core/linkage_graph/graph_builder.py:77-120 | succeeds iff both endpoints exist, the id is new and no same triple is stored; then records the edge at both endpoints and in the type index; otherwise changes nothing |
| LinkageGraph.ProgramLinkageGraph.RemoveEdge | autodsl_affordance/core/linkage_graph/graph_builder.py:147-171 | succeeds iff the id is stored; then deletes the edge from the map, both endpoint lists and the type index; otherwise changes nothing |
| LinkageGraph.ProgramLinkageGraph.RemoveEdgesOf | autodsl_affordance/core/linkage_graph/graph_builder.py:137-139 | removes exactly the edges that touch the node, keeping all others |
| LinkageGraph.ProgramLinkageGraph.RemoveNode | autodsl_affordance/core/linkage_graph/graph_builder.py:122-145 | succeeds iff the node exists; then removes every incident edge and the node, leaving no dangling edge; otherwise changes nothing |
| LinkageGraph.ProgramLinkageGraph.EdgesForNode | autodsl_affordance/core/linkage_graph/graph_builder.py:195-207 | an unknown node has no edges; otherwise the result holds exactly the stored edges touching the node |
| LinkageGraph.ProgramLinkageGraph.EdgesByType | autodsl_affordance/core/linkage_graph/graph_builder.py:209-221 | the result holds exactly the stored edges of the given type |
| LinkageGraph.ProgramLinkageGraph.Degree | autodsl_affordance/core/linkage_graph/graph_builder.py:246-258 | the degree is the number of edges listed for the node, 0 for an unknown node |
| LinkageGraph.ProgramLinkageGraph.GetNeighbors | autodsl_affordance/core/linkage_graph/graph_builder.py:223-244 | returns, edge by edge, the node at the other end of each edge touching the node |
| LinkageGraph.ProgramLinkageGraph.Expand | autodsl_affordance/core/linkage_graph/graph_builder.py:376-390 | either returns a stored edge from the current node to the end, or queues only one-edge extensions of the current path |
| LinkageGraph.ProgramLinkageGraph.Visit | autodsl_affordance/core/linkage_graph/graph_builder.py:364-390 | a path returned from a reachable entry has 1 to max_depth stored edges and walks from start to end |
| LinkageGraph.ProgramLinkageGraph.Dequeue | autodsl_affordance/core/linkage_graph/graph_builder.py:361-390 | one queue step keeps every queued entry reachable within max_depth and any path it returns walks from start to end |
| LinkageGraph.ProgramLinkageGraph.FindPath | autodsl_affordance/core/linkage_graph/graph_builder.py:336-393 | None when either node is unknown, [] when start equals end, otherwise any path found has 1 to max_depth stored edges and walks from start to end |
| LinkageGraph.ProgramLinkageGraph.NodeItems | autodsl_affordance/core/linkage_graph/graph_builder.py:296-301 | lists the nodes in insertion order without repeated ids |
| LinkageGraph.ProgramLinkageGraph.AddAll | autodsl_affordance/core/linkage_graph/graph_builder.py:304-307 | adds each new edge through add_edge, keeping the graph invariant |
| LinkageGraph.ProgramLinkageGraph.ExecuteSingleTraversalPhase | autodsl_affordance/core/linkage_graph/graph_builder.py:279-314 | after the fifth phase sets traversal_complete and adds nothing; otherwise runs the next phase, adds its edges, records them in the history and advances the phase |
| LinkageGraph.ProgramLinkageGraph.RecordPhase | autodsl_affordance/core/linkage_graph/graph_builder.py:304-311 | adds the phase's edges, records them under the phase and makes it the current phase |
| LinkageGraph.ProgramLinkageGraph.RunPhase | autodsl_affordance/core/linkage_graph/graph_builder.py:293-300 | returns fresh edges that are the phase's output on the current nodes and the existing edges, with phase 3 as the code computes it |
| LinkageGraph.ProgramLinkageGraph.ExecuteFullTraversal | autodsl_affordance/core/linkage_graph/graph_builder.py:316-334 | resets the traversal, runs all five phases and ends complete at phase 5; the history holds exactly the five phases, each mapped to fresh edges that are that phase's output on the graph the earlier phases left, tagged with the phase's type and round; the stored edges are the starting ones with each phase's edges added in phase order |
| LinkageGraph.ProgramLinkageGraph.ResetTraversal | autodsl_affordance/core/linkage_graph/graph_builder.py:324-327 | clears the current phase, the completion flag and the history, which starts the loop with no phase recorded |
| LinkageGraph.ProgramLinkageGraph.TraversalStep | autodsl_affordance/core/linkage_graph/graph_builder.py:331-332 | one loop pass either completes the traversal or records the next phase's fresh output and extends the edge fold by it |
| LinkageGraph.PrevPhase | autodsl_affordance/core/linkage_graph/traversal_strategy.py:40-48 | the phase before the first is none; otherwise the previous phase's value is one less |
| LinkageGraph.PrevOfNext | autodsl_affordance/core/linkage_graph/traversal_strategy.py:40-48 | stepping back from the next phase returns to the current one |
| LinkageGraph.AfterPhasesFrame | autodsl_affordance/core/linkage_graph/graph_builder.py:303-311 | recording a later phase does not change the edges the earlier phases produced |
| LinkageGraph.SnapshotStep | autodsl_affordance/core/linkage_graph/graph_builder.py:303-311 | recording the next phase adds exactly that key to the history and extends the edge fold by its edges |
| LinkageGraph.SnapshotsKept | autodsl_affordance/core/linkage_graph/graph_builder.py:303-311 | every recorded phase, old or new, still ran on the edges the earlier phases left |
| LinkageGraph.RecordedExtend | autodsl_affordance/core/linkage_graph/graph_builder.py:309-310 | recording one more phase's output keeps every earlier phase's output |
| LinkageGraph.RecordedFromSnapshots | autodsl_affordance/core/linkage_graph/graph_builder.py:316-334 | outputs recorded against the edges each phase ran on are each phase's output on the graph the earlier phases left |
| LinkageGraph.RecordedTagged | autodsl_affordance/core/linkage_graph/graph_builder.py:316-334 | every recorded edge carries its phase's linkage type and round |
| PrefabEncoder.SubgraphOfFacts | autodsl_affordance/core/linkage_graph/encoder/prefab_function_encoder.py:357-376 | the built subgraph records every edge's two endpoints as neighbours of each other, and nothing else |
| PrefabEncoder.SubgraphOfSymmetric | autodsl_affordance/core/linkage_graph/encoder/prefab_function_encoder.py:367-374 | the subgraph's adjacency is symmetric: every edge is recorded in both directions |
| PrefabEncoder.BuildSubgraph | autodsl_affordance/core/linkage_graph/encoder/prefab_function_encoder.py:357-376 | the loop over the edges builds exactly the subgraph of their endpoint pairs |
| PrefabEncoder.FindConnectedComponents | autodsl_affordance/core/linkage_graph/encoder/prefab_function_encoder.py:378-409 | the components partition the subgraph's keys without repeats; none is empty and no edge leaves one; each lists its nodes so that every node after the first neighbours an earlier one; each starts at the first key, in key order, that no earlier component holds |
| PrefabEncoder.SpanningConnected | autodsl_affordance/core/linkage_graph/encoder/prefab_function_encoder.py:391-407 | every member of a component listed in search order is reached from the component's first member by a walk inside the component, so each component is connected |
| PrefabEncoder.PlaceKey | autodsl_affordance/core/linkage_graph/encoder/prefab_function_encoder.py:391-407 | one pass of the loop over the keys keeps every promise of `_find_connected_components` for the components found so far and adds the current key to the visited set |
| PrefabEncoder.VisitNext | autodsl_affordance/core/linkage_graph/encoder/prefab_function_encoder.py:399-405 | popping the head of the queue and queueing its unvisited neighbours keeps the search state (no repeats, search order from the root, every neighbour of a visited node visited or waiting) and marks a new node or shortens the queue |
| PrefabEncoder.AddComponent | autodsl_affordance/core/linkage_graph/encoder/prefab_function_encoder.py:391-407 | one new component from an unvisited key keeps the visited set equal to the listed nodes, with no repeats and every component closed |
| PrefabEncoder.Explore | autodsl_affordance/core/linkage_graph/encoder/prefab_function_encoder.py:394-407 | the BFS from a root collects a closed component of previously unvisited keys, without repeats, starting at the root, in which every node after the first neighbours an earlier one |
| PrefabEncoder.PushNeighbours | autodsl_affordance/core/linkage_graph/encoder/prefab_function_encoder.py:402-405 | queueing the unvisited neighbours of the current node extends the queue with neighbours of that node only, keeping the BFS bookkeeping (no repeats, visited = earlier + component + queue) |
| PrefabEncoder.CombosFacts | autodsl_affordance/core/linkage_graph/encoder/prefab_function_encoder.py:427 | every generated combination picks the requested number of ids in their original order |
| PrefabEncoder.QualifyingIff | autodsl_affordance/core/linkage_graph/encoder/prefab_function_encoder.py:427-460 | a combination is kept iff it is a clique that no other component node extends |
| PrefabEncoder.CliquesAboveIff | autodsl_affordance/core/linkage_graph/encoder/prefab_function_encoder.py:426-460 | the cliques gathered for sizes above a bound are exactly the maximal cliques of those sizes among the combinations |
| PrefabEncoder.MaxCliquesIff | autodsl_affordance/core/linkage_graph/encoder/prefab_function_encoder.py:411-462 | a returned clique is exactly a combination of at least two component ids that is pairwise adjacent and maximal |
| PrefabEncoder.MaxCliqueMembers | autodsl_affordance/core/linkage_graph/encoder/prefab_function_encoder.py:426-437 | every returned clique has size at least 2, its members come from the component, and without repeats when the ids have none |
| PrefabEncoder.CliquePairwise | autodsl_affordance/core/linkage_graph/encoder/prefab_function_encoder.py:429-437 | the members of a clique are pairwise adjacent in both directions |
| PrefabEncoder.MaximalInSubgraph | autodsl_affordance/core/linkage_graph/encoder/prefab_function_encoder.py:440-456 | no node outside a maximal clique extends it to a clique |
| PrefabEncoder.RowAdjacent | autodsl_affordance/core/linkage_graph/encoder/prefab_function_encoder.py:431-435 | the inner loop reports whether member i is adjacent to every later member |
| PrefabEncoder.CheckClique | autodsl_affordance/core/linkage_graph/encoder/prefab_function_encoder.py:428-437 | the double loop reports exactly whether the combination is a clique |
| PrefabEncoder.CheckMaximal | autodsl_affordance/core/linkage_graph/encoder/prefab_function_encoder.py:440-456 | the loop over the component reports exactly whether no other node extends the clique |
| PrefabEncoder.FilterCliques | autodsl_affordance/core/linkage_graph/encoder/prefab_function_encoder.py:427-460 | keeps exactly the qualifying combinations of one size, in order |
| PrefabEncoder.FindMaxCliques | autodsl_affordance/core/linkage_graph/encoder/prefab_function_encoder.py:411-462 | returns exactly the maximal cliques of size at least 2, largest sizes first |
| PrefabEncoder.LabelNumbered | autodsl_affordance/core/linkage_graph/encoder/prefab_function_encoder.py:81 | an id written as a label followed by the counter carries that counter |
| PrefabEncoder.NumberedDistinct | autodsl_affordance/core/linkage_graph/encoder/prefab_function_encoder.py:106-107 | functions numbered 0, 1, 2, ... have pairwise distinct ids |
| PrefabEncoder.TemplateOf | autodsl_affordance/core/linkage_graph/encoder/prefab_function_encoder.py:146-166 | each clique template carries its linkage type's value and a confidence in (0, 1] |
| PrefabEncoder.InteractionFunction | autodsl_affordance/core/linkage_graph/encoder/prefab_function_encoder.py:79-104 | an interaction function built with counter n has the id INTERACTION_n |
| PrefabEncoder.CliqueFunction | autodsl_affordance/core/linkage_graph/encoder/prefab_function_encoder.py:144-166 | a clique function built with counter n has its label's id with counter n |
| PrefabEncoder.AllCliquesFacts | autodsl_affordance/core/linkage_graph/encoder/prefab_function_encoder.py:124-131 | every clique drawn from the components has at least two distinct subgraph members, is pairwise adjacent and cannot be extended |
| PrefabEncoder.EncodedIdsAreNodes | autodsl_affordance/core/linkage_graph/encoder/prefab_function_encoder.py:71-137 | every endpoint and clique member that gets encoded is a node of the graph |
| PrefabEncoder.PrefabFunctionEncoder.constructor | autodsl_affordance/core/linkage_graph/encoder/prefab_function_encoder.py:24-33 | a new encoder has no functions and counter 0 |
| PrefabEncoder.PrefabFunctionEncoder.Append | autodsl_affordance/core/linkage_graph/encoder/prefab_function_encoder.py:106-107 | appends one function and increments the counter by one, keeping counter = number of functions |
| PrefabEncoder.PrefabFunctionEncoder.EncodeInteractionFunctions | autodsl_affordance/core/linkage_graph/encoder/prefab_function_encoder.py:62-107 | appends one numbered interaction function per interaction edge, in edge order |
| PrefabEncoder.PrefabFunctionEncoder.EncodeEdges | autodsl_affordance/core/linkage_graph/encoder/prefab_function_encoder.py:71-107 | the loop over the edges appends exactly the interaction functions of their facts |
| PrefabEncoder.PrefabFunctionEncoder.EncodeCliques | autodsl_affordance/core/linkage_graph/encoder/prefab_function_encoder.py:131-169 | the loop over cliques appends one numbered function per clique, in order |
| PrefabEncoder.PrefabFunctionEncoder.EncodeCliqueFunctions | autodsl_affordance/core/linkage_graph/encoder/prefab_function_encoder.py:109-169 | for one linkage type, builds the subgraph and components of its edges and appends one function per maximal clique |
| PrefabEncoder.PrefabFunctionEncoder.EncodeComponents | autodsl_affordance/core/linkage_graph/encoder/prefab_function_encoder.py:124-169 | the loop over components appends the functions of each component's maximal cliques (components below 2 nodes give none) |
| PrefabEncoder.PrefabFunctionEncoder.EncodePrefabFunctions | autodsl_affordance/core/linkage_graph/encoder/prefab_function_encoder.py:35-60 | appends interaction functions, then the clique functions of combination, association, invocation and dependency links, numbering them consecutively from the counter |
| PrefabEncoder.CliqueFunctionsAppend | autodsl_affordance/core/linkage_graph/encoder/prefab_function_encoder.py:131-169 | encoding two runs of cliques equals encoding them one after the other with the counter carried over |
| PrefabEncoder.StagesInOrder | autodsl_affordance/core/linkage_graph/encoder/prefab_function_encoder.py:44-57 | the five stages append their functions in order with consecutive numbers |
| PrefabEncoder.EncodedIdsDistinct | autodsl_affordance/core/linkage_graph/encoder/prefab_function_encoder.py:81 | every emitted function has a distinct id |
| FunctionRepository.AppendEachCount | autodsl_affordance/core/linkage_graph/manager/prefab_function_manager.py:338-345 | filing an id under a list of unit keys adds it once per occurrence of each key and changes nothing else |
| FunctionRepository.RemoveEachCount | autodsl_affordance/core/linkage_graph/manager/prefab_function_manager.py:240-246 | removing an id from a list of keys lowers its count under each key by that key's occurrences and changes nothing else |
| FunctionRepository.InsertConsistent | autodsl_affordance/core/linkage_graph/manager/prefab_function_manager.py:117-144 | inserting a complete entry keeps the store consistent: every stored id is filed under its type, units, execution type and tactic, and every index entry names a stored function |
| FunctionRepository.InsertAllConsistent | autodsl_affordance/core/linkage_graph/manager/prefab_function_manager.py:111-144 | inserting a whole list keeps the store consistent |
| FunctionRepository.InsertAllOrigin | autodsl_affordance/core/linkage_graph/manager/prefab_function_manager.py:111-131 | every entry after loading was either there before or is a complete loaded entry filed under its own id |
| FunctionRepository.InsertAllStores | autodsl_affordance/core/linkage_graph/manager/prefab_function_manager.py:111-131 | every complete loaded entry ends up stored under its id |
| FunctionRepository.FilterErrPersists | autodsl_affordance/core/linkage_graph/manager/prefab_function_manager.py:53-97 | once the race filter raises on an entry, the whole load fails |
| FunctionRepository.FilterForKept | autodsl_affordance/core/linkage_graph/manager/prefab_function_manager.py:53-97 | a kept entry comes from the file, passes the validator, fits the map (no maps listed or the map among them) and matches the race |
| FunctionRepository.LoadReplaces | autodsl_affordance/core/linkage_graph/manager/prefab_function_manager.py:99-131 | without merge the store afterwards holds exactly the ids of the complete filtered entries |
| FunctionRepository.LoadedEntries | autodsl_affordance/core/linkage_graph/manager/prefab_function_manager.py:99-131 | without merge every stored entry is complete, filed under its own id, valid and fits the map |
| FunctionRepository.StoredIdIndexed | autodsl_affordance/core/linkage_graph/manager/prefab_function_manager.py:123-144 | in a consistent store every stored id appears in the index lists for its function_type and execution_type |
| FunctionRepository.AddConsistent | autodsl_affordance/core/linkage_graph/manager/prefab_function_manager.py:309-355 | adding keeps the store consistent; it succeeds iff the entry is complete and valid, and a rejected entry changes nothing |
| FunctionRepository.PartialAddConsistent | autodsl_affordance/core/linkage_graph/manager/prefab_function_manager.py:330-355 | an entry without execution_type is stored and filed by type and units and still leaves a consistent store |
| FunctionRepository.RemoveConsistent | autodsl_affordance/core/linkage_graph/manager/prefab_function_manager.py:217-261 | removing keeps the store consistent |
| FunctionRepository.RemovePops | autodsl_affordance/core/linkage_graph/manager/prefab_function_manager.py:227-250 | removing a stored id deletes exactly that entry from the store and the order |
| FunctionRepository.RemoveKeepsRefs | autodsl_affordance/core/linkage_graph/manager/prefab_function_manager.py:227-250 | every other stored function keeps all its index entries |
| FunctionRepository.RemoveDropsRefs | autodsl_affordance/core/linkage_graph/manager/prefab_function_manager.py:227-250 | the removed id is gone from the store and lowered once in each index it was filed in |
| FunctionRepository.Search | autodsl_affordance/core/linkage_graph/manager/prefab_function_manager.py:408-451 | every id found is stored and lies in every requested index |
| FunctionRepository.SearchFindsMatching | autodsl_affordance/core/linkage_graph/manager/prefab_function_manager.py:419-451 | a stored function matching every requested filter is found, so the result is the intersection of the filters |
| FunctionRepository.InvalidIds | autodsl_affordance/core/linkage_graph/manager/prefab_function_manager.py:498-514 | lists exactly the stored ids whose functions fail the consistency check, in order |
| FunctionRepository.Values | autodsl_affordance/core/linkage_graph/manager/prefab_function_manager.py:616-623 | lists the stored functions in insertion order |
| FunctionRepository.ConfidenceSumBounds | autodsl_affordance/core/linkage_graph/manager/prefab_function_manager.py:659-664 | the confidence sum lies between 0 and the number of confidences |
| FunctionRepository.Distribution | autodsl_affordance/core/linkage_graph/manager/prefab_function_manager.py:643-652 | each index key maps to the length of its list |
| FunctionRepository.AverageConfidence | autodsl_affordance/core/linkage_graph/manager/prefab_function_manager.py:669-670 | the average confidence is 0 when no function has one |
| FunctionRepository.AverageConfidenceInRange | autodsl_affordance/core/linkage_graph/manager/prefab_function_manager.py:669-670 | the average of confidences in [0,1] is in [0,1] |
| FunctionRepository.RequiredUnitHits | autodsl_affordance/core/linkage_graph/manager/prefab_function_manager.py:784-788 | the matched required units never exceed the required units |
| FunctionRepository.ExecBonus | autodsl_affordance/core/linkage_graph/manager/prefab_function_manager.py:794-811 | the execution-type bonus lies in [0, 0.25] |
| FunctionRepository.RequiredBonus | autodsl_affordance/core/linkage_graph/manager/prefab_function_manager.py:782-791 | the required-unit bonus lies in [0, 0.2] |
| FunctionRepository.Relevance | autodsl_affordance/core/linkage_graph/manager/prefab_function_manager.py:739-814 | relevance is clamped to [0, 1] |
| FunctionRepository.ScoreEntry | autodsl_affordance/core/linkage_graph/manager/prefab_function_manager.py:699-701 | a scored entry keeps its function and a relevance in [0, 1]; its score lies in [0, 1] when the confidence does, and in [0.35, 0.65] when no confidence is given |
| FunctionRepository.ScoreAll | autodsl_affordance/core/linkage_graph/manager/prefab_function_manager.py:699-701 | scores every function, one entry per function in order |
| FunctionRepository.PrefabFunctionManager.constructor | autodsl_affordance/core/linkage_graph/manager/prefab_function_manager.py:23-32 | a new manager has an empty store and empty indices |
| FunctionRepository.PrefabFunctionManager.Load | autodsl_affordance/core/linkage_graph/manager/prefab_function_manager.py:34-150 | succeeds iff filtering raises nothing; the new store is the load of the filtered entries, cleared first unless merging |
| FunctionRepository.PrefabFunctionManager.InsertEach | autodsl_affordance/core/linkage_graph/manager/prefab_function_manager.py:111-144 | the loop inserts every entry in order and keeps the store consistent |
| FunctionRepository.PrefabFunctionManager.InsertOne | autodsl_affordance/core/linkage_graph/manager/prefab_function_manager.py:112-144 | skips an entry missing function_id, function_type or execution_type; otherwise stores it and files it in all four indices |
| FunctionRepository.PrefabFunctionManager.FileUnits | autodsl_affordance/core/linkage_graph/manager/prefab_function_manager.py:343-345 | appends the id under each unit of the list |
| FunctionRepository.PrefabFunctionManager.Add | autodsl_affordance/core/linkage_graph/manager/prefab_function_manager.py:309-355 | changes the store exactly as adding specifies and keeps it consistent |
| FunctionRepository.PrefabFunctionManager.Remove | autodsl_affordance/core/linkage_graph/manager/prefab_function_manager.py:217-261 | changes the store exactly as removal specifies; reports not found iff the id was unknown |
| FunctionRepository.PrefabFunctionManager.ValidateConsistency | autodsl_affordance/core/linkage_graph/manager/prefab_function_manager.py:453-496 | accepts iff every required field is present and the confidence, when present, lies in [0, 1] |
| FunctionRepository.PrefabFunctionManager.ValidateAll | autodsl_affordance/core/linkage_graph/manager/prefab_function_manager.py:498-514 | returns exactly the ids of stored functions that fail the check |
| FunctionRepository.PrefabFunctionManager.Statistics | autodsl_affordance/core/linkage_graph/manager/prefab_function_manager.py:625-672 | counts the functions and units, gives each index's distribution and the average parameter count and confidence |
| FunctionRepository.PrefabFunctionManager.GetOptimalFunctions | autodsl_affordance/core/linkage_graph/manager/prefab_function_manager.py:674-737 | returns the top max_functions scored functions, sorted by score descending, never more than stored |
| FunctionRepository.ScoreEach | autodsl_affordance/core/linkage_graph/manager/prefab_function_manager.py:699-701 | the scoring loop scores every function in order |
| FunctionRepository.OrderCardinality | autodsl_affordance/core/linkage_graph/manager/prefab_function_manager.py:607-614 | the insertion order lists each stored id once, so its length is the function count |
| FunctionRepository.OptimalFacts | autodsl_affordance/core/linkage_graph/manager/prefab_function_manager.py:717-720 | the sorted, sliced scores are sorted descending, no longer than the input and at most max_functions |
| Handler.FriendlyUnits | autodsl_affordance/core/prefab_system/handler/prefab_function_handler.py:313 | keeps exactly the observed units of alliance 1, in order |
| Handler.EnemyUnits | autodsl_affordance/core/prefab_system/handler/prefab_function_handler.py:314 | keeps exactly the observed units of any other alliance, in order |
| Handler.UnitsPartition | autodsl_affordance/core/prefab_system/handler/prefab_function_handler.py:313-314 | every observed unit is friendly or enemy, never both, so the two counts add up to all units |
| Handler.TypesOfCounts | autodsl_affordance/core/prefab_system/handler/prefab_function_handler.py:255-267 | the per-type counts sum to the number of units, keys are distinct, and each key counts exactly the units of that type |
| Handler.GameStateCounts | autodsl_affordance/core/prefab_system/handler/prefab_function_handler.py:247-286 | the per-type counts of each side sum to its unit count, and the type diversity lies in (0, 1] with a friendly unit and is 0 without |
| Handler.ObservationCounts | autodsl_affordance/core/prefab_system/handler/prefab_function_handler.py:247-249 | the friendly and enemy counts of an observation add up to its number of units |
| Handler.AnalyzeGameState | autodsl_affordance/core/prefab_system/handler/prefab_function_handler.py:235-300 | the game state the loops build is the one the counting specification gives |
| Handler.CountTypes | autodsl_affordance/core/prefab_system/handler/prefab_function_handler.py:255-267 | the counting loop fills both the base-type and the full-name counts |
| Handler.UnitRace | autodsl_affordance/core/prefab_system/handler/prefab_function_handler.py:901-906 | a unit name reveals protoss, terran, zerg or no race, with the protoss keywords checked first |
| Handler.RaceOrDefault | autodsl_affordance/core/prefab_system/handler/prefab_function_handler.py:909-914 | the fallback race is the default when one is set, else "unknown", and never empty |
| Handler.DetectedRaceFirst | autodsl_affordance/core/prefab_system/handler/prefab_function_handler.py:891-924 | the detected race is never empty; it is the race of the first unit that reveals one, and the fallback exactly when none does |
| Handler.CoordinationCandidatesExact | autodsl_affordance/core/prefab_system/handler/prefab_function_handler.py:189-206 | a library function is a coordination candidate exactly when its tactic category is one of the two coordination categories and all its required units are among the friendly base types |
| Handler.DedupeKeepsFirstOccurrences | autodsl_affordance/core/prefab_system/handler/prefab_function_handler.py:209-216 | deduplication fails exactly when a candidate lacks function_id; otherwise it keeps the first function of every id, in candidate order, and loses no id |
| Handler.DedupeFailsWithoutId | autodsl_affordance/core/prefab_system/handler/prefab_function_handler.py:211 | a candidate without function_id makes the retrieval fail |
| Handler.DedupeUnique | autodsl_affordance/core/prefab_system/handler/prefab_function_handler.py:209-216 | the functions kept carry pairwise distinct ids and all are candidates |
| Handler.DedupeErrSticks | autodsl_affordance/core/prefab_system/handler/prefab_function_handler.py:209-216 | an error in a prefix of the candidates is the error of the whole list |
| Handler.CollectBaseTypes | autodsl_affordance/core/prefab_system/handler/prefab_function_handler.py:160-165 | the loop collects the base type of every friendly unit |
| Handler.SearchByUnits | autodsl_affordance/core/prefab_system/handler/prefab_function_handler.py:168-186 | the loop issues the full-name, base-type and race-prefixed queries for every friendly unit, in order |
| Handler.CoordinationFunctions | autodsl_affordance/core/prefab_system/handler/prefab_function_handler.py:188-206 | the loop keeps exactly the coordination candidates of the library, in library order |
| Handler.DedupeById | autodsl_affordance/core/prefab_system/handler/prefab_function_handler.py:209-216 | the deduplication loop computes the deduplication specification |
| Handler.FirstRaceIn | autodsl_affordance/core/prefab_system/handler/prefab_function_handler.py:378-397 | the first of terran, protoss, zerg that occurs in the text, or none; a race returned occurs in the text |
| Handler.FunctionRace | autodsl_affordance/core/prefab_system/handler/prefab_function_handler.py:363-398 | a function declares terran, protoss, zerg or no race |
| Handler.CooldownAsWrittenRewards | autodsl_affordance/core/prefab_system/handler/prefab_function_handler.py:680-684 | with the factor as written, a cooldown of 3 or more multiplies the score by more than 1 and a longer cooldown by more |
| Handler.CooldownFactorPenalises | autodsl_affordance/core/prefab_system/handler/prefab_function_handler.py:680-684 | the intended factor lies in [0, 1) and a longer remaining cooldown lowers the score more |
| Handler.ResultsFor | autodsl_affordance/core/prefab_system/handler/prefab_function_handler.py:689 | the results of one function are exactly the recorded results with its id, empty iff it has none |
| Handler.FeedbackFactor | autodsl_affordance/core/prefab_system/handler/prefab_function_handler.py:687-694 | the success-rate factor lies in [0.5, 1] |
| Handler.ScoredList | autodsl_affordance/core/prefab_system/handler/prefab_function_handler.py:322-697 | every scored entry is an input function that passes the filters, with its score |
| Handler.ScoreAll | autodsl_affordance/core/prefab_system/handler/prefab_function_handler.py:322-697 | the scoring loop produces the scored list in input order |
| Handler.ScoredListCovers | autodsl_affordance/core/prefab_system/handler/prefab_function_handler.py:322-697 | every function that passes the hard filters is scored |
| Handler.FactorBounds | autodsl_affordance/core/prefab_system/handler/prefab_function_handler.py:672-694 | with cooldowns of 1 to 4 steps, the diversity multiplier lies in (0, 1], the feedback one in [0.5, 1], and the cooldown one is 1 off cooldown and within [0.9, 1.2] on it, above 1 from three remaining steps |
| Handler.DiversityInUnit | autodsl_affordance/core/prefab_system/handler/prefab_function_handler.py:672-677 | `0.95 ** uses` over the last five steps lies in (0, 1] |
| Handler.PenaltiesBounded | autodsl_affordance/core/prefab_system/handler/prefab_function_handler.py:672-694 | the multipliers keep a non-negative score non-negative and at most the score times the cooldown multiplier, so a function not on cooldown never gains |
| Handler.CooldownEffect | autodsl_affordance/core/prefab_system/handler/prefab_function_handler.py:679-684 | against the same function off cooldown, a positive score is lower with one remaining step, equal with two and higher with three or more |
| Handler.CooldownScaled | autodsl_affordance/core/prefab_system/handler/prefab_function_handler.py:679-684 | the cooldown factor scales the product of the other multipliers, and is below, at or above 1 for 1, 2 and 3 or more steps |
| Handler.ScoreFunctionsRanked | autodsl_affordance/core/prefab_system/handler/prefab_function_handler.py:301-701 | the ranking is sorted by score descending, is a permutation of the scored list, and holds every unfiltered function with its score |
| Common.SortDescStable | autodsl_affordance/core/prefab_system/handler/prefab_function_handler.py:700 | the descending sort is stable: the entries of any one score come out in their input order |
| Handler.FilteredExcluded | autodsl_affordance/core/prefab_system/handler/prefab_function_handler.py:330-668 | a function hit by a hard filter never appears in the ranking |
| Handler.CombinationNeedsAllUnits | autodsl_affordance/core/prefab_system/handler/prefab_function_handler.py:618-664 | a combination function with a required unit missing from the field is excluded |
| Handler.PositiveEntries | autodsl_affordance/core/prefab_system/handler/prefab_function_handler.py:719 | keeps exactly the entries with a positive score, never more than given |
| Handler.SelectionBounds | autodsl_affordance/core/prefab_system/handler/prefab_function_handler.py:716-719 | at most top_k functions are selected, all with positive score, in descending order, each from the input |
| Handler.SelectionDominates | autodsl_affordance/core/prefab_system/handler/prefab_function_handler.py:716-719 | an input entry with positive score that is left out scores no higher than any selected one |
| Handler.UsageRecords | autodsl_affordance/core/prefab_system/handler/prefab_function_handler.py:722-743 | one usage record per ranked function |
| Handler.RelevanceRecords | autodsl_affordance/core/prefab_system/handler/prefab_function_handler.py:725-734 | one relevance record per ranked function when a game state is given, none otherwise |
| Handler.FunctionRelevance | autodsl_affordance/core/prefab_system/handler/prefab_function_handler.py:1464-1615 | relevance is clamped to [0, 1] |
| Handler.MissingSourceLowersRelevance | autodsl_affordance/core/prefab_system/handler/prefab_function_handler.py:1484-1490 | a source unit absent from the field costs 0.5 against naming no source unit, so the function is never more relevant |
| Handler.ExecutionQuality | autodsl_affordance/core/prefab_system/handler/prefab_function_handler.py:1106-1153 | the execution quality is clamped to [0, 1] |
| Handler.QualityFavoursSuccess | autodsl_affordance/core/prefab_system/handler/prefab_function_handler.py:1118-1153 | for the same effects a success never rates below a failure; with no effect a success rates 0.8 and a failure 0.2 |
| Handler.NewConfidenceBounds | autodsl_affordance/core/prefab_system/handler/prefab_function_handler.py:1446-1455 | a confidence in [0.1, 1] stays there; a success never lowers it, a failure never raises it, and it moves by at most 0.1 |
| Handler.CooldownFor | autodsl_affordance/core/prefab_system/handler/prefab_function_handler.py:1020-1027 | the cooldown set is between 1 and 4 steps |
| Handler.CooldownExpires | autodsl_affordance/core/prefab_system/handler/prefab_function_handler.py:1040-1047 | a cooldown of c steps stays listed, counting down, for c - 1 passes and is removed on the c-th |
| Handler.DecrementedBounded | autodsl_affordance/core/prefab_system/handler/prefab_function_handler.py:1040-1047 | a pass keeps cooldowns within bounds and strictly lowers each remaining one |
| Handler.ZeroLimitReturnsAll | autodsl_affordance/core/prefab_system/handler/prefab_function_handler.py:1427 | as written, a limit of 0 returns the whole non-empty history instead of nothing |
| Handler.ExecutionHistory | autodsl_affordance/core/prefab_system/handler/prefab_function_handler.py:1410-1427 | the intended history is the most recent min(limit, available) records, none for a limit of 0 or less |
| Handler.ExecutionHistoryOfFunction | autodsl_affordance/core/prefab_system/handler/prefab_function_handler.py:1421-1422 | asked for one function, the history holds only that function's records |
| Handler.ExecutionHistoryAgrees | autodsl_affordance/core/prefab_system/handler/prefab_function_handler.py:1410-1427 | for a positive limit the intended and as-written histories agree |
| Handler.AsWrittenHistoryFacts | autodsl_affordance/core/prefab_system/handler/prefab_function_handler.py:1418-1427 | `history[-limit:]` is a suffix of the history: the intended latest `limit` records for a positive limit, everything for 0, all but the first `-limit` for a negative limit, only that function's records when an id is given |
| Handler.StripSeparators | autodsl_affordance/core/prefab_system/handler/prefab_function_handler.py:796 | the result holds no space and no underscore |
| Handler.DropDigits | autodsl_affordance/core/prefab_system/handler/prefab_function_handler.py:805-809 | the result holds no digit and only characters of the input |
| Handler.StripRace | autodsl_affordance/core/prefab_system/handler/prefab_function_handler.py:799-802 | the result only holds characters of the name |
| Handler.NormalizeStripped | autodsl_affordance/core/prefab_system/handler/prefab_function_handler.py:796-810 | after separators are gone, the normal form holds no digit, separator or upper-case letter |
| Handler.NormalizeUnitName | autodsl_affordance/core/prefab_system/handler/prefab_function_handler.py:790-810 | the normal form holds no digit, separator or upper-case letter |
| Handler.UnitMatchIgnoresCase | autodsl_affordance/core/prefab_system/handler/prefab_function_handler.py:812-825 | names equal up to letter case have the same normal form and match the same units |
| Handler.UnitMatchIgnoresSeparator | autodsl_affordance/core/prefab_system/handler/prefab_function_handler.py:796 | a space or underscore between two parts of a name does not change its normal form |
| Handler.PrefabFunctionHandler.constructor | autodsl_affordance/core/prefab_system/handler/prefab_function_handler.py:111-139 | a new handler has empty history, cooldowns and results and a fresh, empty performance monitor |
| Handler.PrefabFunctionHandler.DetectRace | autodsl_affordance/core/prefab_system/handler/prefab_function_handler.py:891-924 | returns the detected race of the units |
| Handler.PrefabFunctionHandler.RetrieveRelevantFunctions | autodsl_affordance/core/prefab_system/handler/prefab_function_handler.py:145-233 | returns the deduplicated unit-query and coordination candidates of the friendly units |
| Handler.PrefabFunctionHandler.ScoreFunctions | autodsl_affordance/core/prefab_system/handler/prefab_function_handler.py:301-701 | returns the sorted scored list for the observation |
| Handler.PrefabFunctionHandler.SelectOptimalFunctions | autodsl_affordance/core/prefab_system/handler/prefab_function_handler.py:703-766 | returns the selection and appends one usage record per ranked function, plus a relevance record each when a game state is given |
| Handler.PrefabFunctionHandler.ReportAll | autodsl_affordance/core/prefab_system/handler/prefab_function_handler.py:722-743 | the reporting loop appends the usage and relevance records in ranking order |
| Handler.PrefabFunctionHandler.ReportEntry | autodsl_affordance/core/prefab_system/handler/prefab_function_handler.py:723-743 | one iteration appends one usage record and, with a game state, one relevance record |
| Handler.PrefabFunctionHandler.UpdateHistory | autodsl_affordance/core/prefab_system/handler/prefab_function_handler.py:1007-1038 | appends the id to the history, sets its cooldown by name and appends the step result, keeping the cooldown bounds |
| Handler.PrefabFunctionHandler.DecrementCooldowns | autodsl_affordance/core/prefab_system/handler/prefab_function_handler.py:1040-1047 | performs one cooldown pass and changes nothing else |
| Handler.PrefabFunctionHandler.UpdateFunctionConfidence | autodsl_affordance/core/prefab_system/handler/prefab_function_handler.py:1429-1462 | the library changes exactly as the confidence update specifies |
| Handler.PrefabFunctionHandler.RecordExecutionResult | autodsl_affordance/core/prefab_system/handler/prefab_function_handler.py:1049-1104 | appends the result with its effect metrics and quality, reports the impact and updates the confidence |
| Handler.PrefabFunctionHandler.GetExecutionHistory | autodsl_affordance/core/prefab_system/handler/prefab_function_handler.py:1410-1427 | returns the latest records of the history (one function's or all), all recorded results: the latest `limit` for a positive limit, the whole history for 0, all but the first `-limit` for a negative limit |
| PrefabManager.EffectiveConfig | autodsl_affordance/core/prefab_system/manager/prefab_function_manager.py:29-46 | an absent or empty configuration means top_k 3, cache size 100 and the monitor on; otherwise the monitor is on only when the key is set true |
| PrefabManager.CacheResult | autodsl_affordance/core/prefab_system/manager/prefab_function_manager.py:378-392 | caching fails exactly when the cache size is 0 or less and the cache is empty; otherwise the key maps to the new result |
| PrefabManager.EvictedWellFormed | autodsl_affordance/core/prefab_system/manager/prefab_function_manager.py:387-389 | evicting the oldest entry keeps the order and the entries in step |
| PrefabManager.StoredWellFormed | autodsl_affordance/core/prefab_system/manager/prefab_function_manager.py:392 | storing keeps the cache well formed and grows the order only for a new key |
| PrefabManager.CacheSize | autodsl_affordance/core/prefab_system/manager/prefab_function_manager.py:378-392 | in a well-formed cache the number of entries is the length of the insertion order |
| PrefabManager.CacheBounded | autodsl_affordance/core/prefab_system/manager/prefab_function_manager.py:378-392 | caching into a cache within its size keeps it well formed and within its size |
| PrefabManager.CacheEvictsOldest | autodsl_affordance/core/prefab_system/manager/prefab_function_manager.py:385-392 | at capacity the oldest other key is evicted first, insertion order being Python's dict order |
| PrefabManager.RaceLabel | autodsl_affordance/core/prefab_system/manager/prefab_function_manager.py:374 | the race part of the key is never empty ("unknown" stands for no race) |
| PrefabManager.KeyOfInjective | autodsl_affordance/core/prefab_system/manager/prefab_function_manager.py:359-376 | different counts or races never give the same cache key |
| PrefabManager.CacheKeyIff | autodsl_affordance/core/prefab_system/manager/prefab_function_manager.py:359-376 | two observations share a cache key exactly when they have as many friendly units, as many enemy units and the same race label |
| PrefabManager.CountTypes | autodsl_affordance/core/prefab_system/manager/prefab_function_manager.py:234-240 | one counting loop yields each base type (the name up to its first `_`) with the number of units of that type, in first-seen order |
| PrefabManager.AnalyzeObservation | autodsl_affordance/core/prefab_system/manager/prefab_function_manager.py:213-255 | the loops compute the manager's game state of the observation |
| PrefabManager.ManagerStateCounts | autodsl_affordance/core/prefab_system/manager/prefab_function_manager.py:223-243 | the friendly and enemy counts add up to the units, and each per-type table sums to its side's count |
| PrefabManager.ManagerUnitRace | autodsl_affordance/core/prefab_system/manager/prefab_function_manager.py:272-285 | a unit name reveals protoss, terran, zerg or no race |
| PrefabManager.ManagerDetectedRace | autodsl_affordance/core/prefab_system/manager/prefab_function_manager.py:257-289 | the detected race is protoss, terran, zerg or unknown |
| PrefabManager.ManagerRaceFirst | autodsl_affordance/core/prefab_system/manager/prefab_function_manager.py:272-285 | the detected race is that of the first friendly unit revealing one |
| PrefabManager.ManagerRaceUnknown | autodsl_affordance/core/prefab_system/manager/prefab_function_manager.py:266-289 | the race is unknown exactly when no friendly unit reveals one, an empty side included |
| PrefabManager.PrefabFunctionManager.DetectRace | autodsl_affordance/core/prefab_system/manager/prefab_function_manager.py:257-289 | returns the detected race of the observation's friendly units |
| PrefabManager.CheckRequiredUnits | autodsl_affordance/core/prefab_system/manager/prefab_function_manager.py:325-329 | answers true iff the last `_` segment of every required unit, lower-cased, occurs in some friendly type key |
| PrefabManager.CheckFunctionRelevant | autodsl_affordance/core/prefab_system/manager/prefab_function_manager.py:313-339 | accepts iff every required unit occurs in a friendly type and the tactic fits; a relevant defence function never has the friendly side larger, an offence one never smaller |
| PrefabManager.RelevantOf | autodsl_affordance/core/prefab_system/manager/prefab_function_manager.py:302-309 | the filter never lengthens the list |
| PrefabManager.RelevantMembers | autodsl_affordance/core/prefab_system/manager/prefab_function_manager.py:302-309 | a function survives the filter exactly when it is given and relevant |
| PrefabManager.RetrievedMembers | autodsl_affordance/core/prefab_system/manager/prefab_function_manager.py:291-311 | a function is retrieved exactly when it is in the catalogue, matches the race and is relevant |
| PrefabManager.RetrieveRelevantFunctions | autodsl_affordance/core/prefab_system/manager/prefab_function_manager.py:291-311 | the filtering loop computes the retrieval specification |
| PrefabManager.ScoreUpdated | autodsl_affordance/core/prefab_system/manager/prefab_function_manager.py:193-211 | the usage count goes up by one and the identity of the function is kept |
| PrefabManager.SuccessRateStaysInUnit | autodsl_affordance/core/prefab_system/manager/prefab_function_manager.py:196-205 | a success rate in [0, 1] stays in [0, 1] after an update |
| PrefabManager.SuccessCount | autodsl_affordance/core/prefab_system/manager/prefab_function_manager.py:200-205 | the number of successes never exceeds the number of outcomes |
| PrefabManager.RunningMean | autodsl_affordance/core/prefab_system/manager/prefab_function_manager.py:193-205 | replayed from scratch, the success rate is the fraction of successful outcomes and the usage count their number |
| PrefabManager.MeanFold | autodsl_affordance/core/prefab_system/manager/prefab_function_manager.py:198-203 | an update folds one more outcome into the running mean |
| PrefabManager.ConfidenceNudged | autodsl_affordance/core/prefab_system/manager/prefab_function_manager.py:207-211 | a confidence, when present, stays within [0.1, 1] after an update, and none is added when absent |
| PrefabManager.ScoreUpdateVisible | autodsl_affordance/core/prefab_system/manager/prefab_function_manager.py:167-211 | the updated function is still found under its id |
| PrefabManager.ManagerUsageRecords | autodsl_affordance/core/prefab_system/manager/prefab_function_manager.py:88-97 | one usage record per selected function, in order |
| PrefabManager.PrefabFunctionManager.constructor | autodsl_affordance/core/prefab_system/manager/prefab_function_manager.py:22-52 | the manager starts with the effective configuration, an empty cache and a fresh monitor |
| PrefabManager.PrefabFunctionManager.Ranked | autodsl_affordance/core/prefab_system/manager/prefab_function_manager.py:84-85 | every ranked entry carries a named function |
| PrefabManager.PrefabFunctionManager.GetOptimalFunctions | autodsl_affordance/core/prefab_system/manager/prefab_function_manager.py:54-107 | a cached key returns the cached answer and changes nothing; otherwise the answer is computed, recorded and cached, and the cache stays well formed |
| PrefabManager.PrefabFunctionManager.RankFor | autodsl_affordance/core/prefab_system/manager/prefab_function_manager.py:78-89 | the game state is the manager's analysis of the observation, and the ranking is the handler's sorted scores of the functions retrieved for the given race, or for the detected one when none is given |
| PrefabManager.PrefabFunctionManager.ComputeOptimal | autodsl_affordance/core/prefab_system/manager/prefab_function_manager.py:78-97 | the answer is the handler's selection over the retrieved functions, and the selected functions are recorded when monitoring is on |
| PrefabManager.PrefabFunctionManager.RecordSelected | autodsl_affordance/core/prefab_system/manager/prefab_function_manager.py:88-97 | appends one usage record per selected function and nothing else |
| PrefabManager.PrefabFunctionManager.UpdateFunctionScore | autodsl_affordance/core/prefab_system/manager/prefab_function_manager.py:179-211 | an unknown id changes nothing; otherwise the function's usage count, running success rate and confidence are updated, and every copy of it in the by-race and by-type lists and in the cached results is updated alike, nothing else changing |
| PrefabManager.PrefabFunctionManager.ClearCache | autodsl_affordance/core/prefab_system/manager/prefab_function_manager.py:417-422 | empties the cache and keeps the catalogue |
| PerformanceMonitor.ChangeOfSame | autodsl_affordance/core/prefab_system/handler/prefab_performance_monitor.py:93-99 | a decision that leaves the state as it was records no count change |
| PerformanceMonitor.ChangeOfSwapped | autodsl_affordance/core/prefab_system/handler/prefab_performance_monitor.py:93-99 | swapping the states before and after negates every change and keeps the action count |
| PerformanceMonitor.ChangeFromEmpty | autodsl_affordance/core/prefab_system/handler/prefab_performance_monitor.py:93-99 | from an empty state the change is the later value itself (missing keys count 0), and the low-health change lies in [-1, 1] |
| PerformanceMonitor.StatsCount | autodsl_affordance/core/prefab_system/handler/prefab_performance_monitor.py:119-140 | a function has statistics exactly when it was reported; its totals count its records and its selections, never more selections than records |
| PerformanceMonitor.SelectedRateInRange | autodsl_affordance/core/prefab_system/handler/prefab_performance_monitor.py:136-140 | every selection rate lies in [0, 1] |
| PerformanceMonitor.AvgActionsRecord | autodsl_affordance/core/prefab_system/handler/prefab_performance_monitor.py:145-160 | the action averages are running means: all 0 with no decisions, and one more decision moves each to (n * old + new) / (n + 1) |
| PerformanceMonitor.AvgAttackBounded | autodsl_affordance/core/prefab_system/handler/prefab_performance_monitor.py:145-160 | with per-decision attack counts in [0, b] the average attack count is in [0, b] |
| PerformanceMonitor.GroupsExact | autodsl_affordance/core/prefab_system/handler/prefab_performance_monitor.py:164-171 | a step is grouped exactly when a relevance record has it, and its group is that step's relevances in order |
| PerformanceMonitor.StepsOf | autodsl_affordance/core/prefab_system/handler/prefab_performance_monitor.py:164-171 | the steps listed are exactly the grouped steps |
| PerformanceMonitor.InsertInt | autodsl_affordance/core/prefab_system/handler/prefab_performance_monitor.py:174 | insertion adds exactly one element |
| PerformanceMonitor.SortInts | autodsl_affordance/core/prefab_system/handler/prefab_performance_monitor.py:174 | sorting keeps exactly the same elements and length |
| PerformanceMonitor.SortIntsAscending | autodsl_affordance/core/prefab_system/handler/prefab_performance_monitor.py:174 | distinct steps come out in ascending order |
| PerformanceMonitor.StepsDistinct | autodsl_affordance/core/prefab_system/handler/prefab_performance_monitor.py:164-171 | each step is grouped once |
| PerformanceMonitor.TrendAscending | autodsl_affordance/core/prefab_system/handler/prefab_performance_monitor.py:172-180 | the relevance trend is strictly ascending by step |
| PerformanceMonitor.TrendCoversSteps | autodsl_affordance/core/prefab_system/handler/prefab_performance_monitor.py:172-180 | every recorded step has a trend point |
| PerformanceMonitor.TrendMeans | autodsl_affordance/core/prefab_system/handler/prefab_performance_monitor.py:174-180 | each trend point is the mean of the relevances recorded at its step |
| PerformanceMonitor.PrefabPerformanceMonitor.constructor | autodsl_affordance/core/prefab_system/handler/prefab_performance_monitor.py:10-15 | a new monitor has four empty histories |
| PerformanceMonitor.PrefabPerformanceMonitor.RecordFunctionUsage | autodsl_affordance/core/prefab_system/handler/prefab_performance_monitor.py:17-38 | appends one usage record and leaves the other histories alone |
| PerformanceMonitor.PrefabPerformanceMonitor.RecordDecisionQuality | autodsl_affordance/core/prefab_system/handler/prefab_performance_monitor.py:40-59 | appends one quality record and leaves the other histories alone |
| PerformanceMonitor.PrefabPerformanceMonitor.RecordPrefabRelevance | autodsl_affordance/core/prefab_system/handler/prefab_performance_monitor.py:61-80 | appends one relevance record and leaves the other histories alone |
| PerformanceMonitor.PrefabPerformanceMonitor.RecordDecisionImpact | autodsl_affordance/core/prefab_system/handler/prefab_performance_monitor.py:82-109 | appends one impact record with the state change of the two states |
| PerformanceMonitor.PrefabPerformanceMonitor.GetPerformanceSummary | autodsl_affordance/core/prefab_system/handler/prefab_performance_monitor.py:111-191 | the loops compute the summary specification: statistics, decision count, average actions and trend |
| PerformanceMonitor.PrefabPerformanceMonitor.RelevanceTrend | autodsl_affordance/core/prefab_system/handler/prefab_performance_monitor.py:162-180 | the grouping and averaging loops compute the trend specification |
| PerformanceMonitor.TrendPoints | autodsl_affordance/core/prefab_system/handler/prefab_performance_monitor.py:174-180 | the averaging loop produces one point per sorted step |
| PrefabLoader.FileFunctions | autodsl_affordance/core/prefab_system/loader/prefab_loader.py:102-125 | a list is kept, a dictionary with a functions key gives that value, any other dictionary becomes a one-element list, anything else the empty list |
| PrefabLoader.FileFunctionsShapes | autodsl_affordance/core/prefab_system/loader/prefab_loader.py:116-122 | a wrapped list and the bare list load alike, and loading an already normalised file changes nothing |
| PrefabLoader.Basename | autodsl_affordance/core/prefab_system/loader/prefab_loader.py:137 | the base name holds no slash and ends the path |
| PrefabLoader.RaceFromFilename | autodsl_affordance/core/prefab_system/loader/prefab_loader.py:127-146 | terran when the lower-cased base name contains it, else protoss, else zerg, else unknown, each case exactly |
| PrefabLoader.TypeFromFilename | autodsl_affordance/core/prefab_system/loader/prefab_loader.py:148-167 | synergy, else heterogeneous, else without_move, else standard, each case exactly |
| PrefabLoader.PrefabFiles | autodsl_affordance/core/prefab_system/loader/prefab_loader.py:77-100 | never lists more files than the directory holds |
| PrefabLoader.PrefabFilesExact | autodsl_affordance/core/prefab_system/loader/prefab_loader.py:93-98 | a path is listed exactly when it joins the directory with a .json name that contains the race, when one is given |
| PrefabLoader.CatalogFiling | autodsl_affordance/core/prefab_system/loader/prefab_loader.py:26-75 | all is every loaded function, and each race and type list holds exactly the functions of the files with that race or type, in file order |
| PrefabLoader.FindById | autodsl_affordance/core/prefab_system/loader/prefab_loader.py:180-183 | finds the first function with the id, or reports that none has it |
| PrefabLoader.GetFunctionById | autodsl_affordance/core/prefab_system/loader/prefab_loader.py:169-183 | a function is returned exactly when one in all has the id, and it has that id |
| PrefabLoader.AnyContainsIff | autodsl_affordance/core/prefab_system/loader/prefab_loader.py:243-263 | a name list matches exactly when one lower-cased name contains the unit |
| PrefabLoader.AnyContainsAppend | autodsl_affordance/core/prefab_system/loader/prefab_loader.py:235-265 | matching a concatenation is matching either part |
| PrefabLoader.UnitMatchesIff | autodsl_affordance/core/prefab_system/loader/prefab_loader.py:224-265 | a function matches a unit exactly when one of its source, required, participating or listed unit names contains it |
| PrefabLoader.Filter | autodsl_affordance/core/prefab_system/loader/prefab_loader.py:196-222 | the search never lengthens the list |
| PrefabLoader.SearchNoCriteria | autodsl_affordance/core/prefab_system/loader/prefab_loader.py:196-222 | with no criteria the search returns every function, in order |
| PrefabLoader.SearchMembers | autodsl_affordance/core/prefab_system/loader/prefab_loader.py:196-222 | a function is found exactly when it is in the list and meets every given criterion |
| PrefabLoader.SearchAppend | autodsl_affordance/core/prefab_system/loader/prefab_loader.py:198-220 | the search distributes over concatenation, so it keeps the input order |
| PrefabLoader.SearchIgnoresCase | autodsl_affordance/core/prefab_system/loader/prefab_loader.py:203-215 | lower-casing the criteria first gives the same result |
| JsonLoader.DigitRunLength | autodsl_affordance/utils/json_loader.py:892 | the digit run is the longest all-digit prefix |
| JsonLoader.DigitsValueOfString | autodsl_affordance/utils/json_loader.py:898 | reading back the decimal numeral of n gives n |
| JsonLoader.DigitRuns | autodsl_affordance/utils/json_loader.py:892 | every run found is a non-empty string of digits |
| JsonLoader.DigitRunsAppend | autodsl_affordance/utils/json_loader.py:892 | the runs of two texts split at a non-digit are the runs of each part, in order |
| JsonLoader.DigitRunsOfNumeral | autodsl_affordance/utils/json_loader.py:892 | a numeral is a single run |
| JsonLoader.ParseDefenseValues | autodsl_affordance/utils/json_loader.py:876-911 | the padding loop computes the defence specification |
| JsonLoader.DefenseValuesShape | autodsl_affordance/utils/json_loader.py:891-911 | parsing fails exactly in development mode with fewer than three numbers; otherwise it gives three values, the numbers found padded with 0 |
| JsonLoader.DefenseRoundTrip | autodsl_affordance/utils/json_loader.py:876-911 | the defence text of health, shield and armour parses back to those three values in either mode |
| JsonLoader.CloseIndex | autodsl_affordance/utils/json_loader.py:787 | finds the first closing parenthesis, or reports there is none |
| JsonLoader.RemoveGroups | autodsl_affordance/utils/json_loader.py:787 | removing parenthesised groups never lengthens the text |
| JsonLoader.RemoveGroupsNoClose | autodsl_affordance/utils/json_loader.py:787 | removal never introduces a closing parenthesis |
| JsonLoader.RemoveGroupsComplete | autodsl_affordance/utils/json_loader.py:787 | no parenthesised group is left after removal |
| JsonLoader.RemoveGroupsKeepsPlain | autodsl_affordance/utils/json_loader.py:787 | a prefix free of spaces and opening parentheses is kept unchanged |
| JsonLoader.TrailingGroupRemoved | autodsl_affordance/utils/json_loader.py:787 | a trailing group with its leading space is removed entirely |
| JsonLoader.ExtractBaseValue | autodsl_affordance/utils/json_loader.py:771-801 | fails exactly in development mode when no digits remain once the groups are removed |
| JsonLoader.NoParenthesisNoUpgrade | autodsl_affordance/utils/json_loader.py:803-812 | a text without an opening parenthesis has upgrade 0 |
| JsonLoader.UpgradeAtText | autodsl_affordance/utils/json_loader.py:809 | the text (+n) reads as upgrade n |
| JsonLoader.UpgradeRoundTrip | autodsl_affordance/utils/json_loader.py:803-812 | the first (+n) of a text is read back as n whatever follows |
| JsonLoader.DamageBase | autodsl_affordance/utils/json_loader.py:771-801 | the base of the damage text "b (+u)" is b |
| JsonLoader.DamageUpgrade | autodsl_affordance/utils/json_loader.py:803-812 | the upgrade of the damage text "b (+u)" is u |
| JsonLoader.TokenAt | autodsl_affordance/utils/json_loader.py:819 | the number token at a digit is well formed and is exactly the text it consumes |
| JsonLoader.NumberTokens | autodsl_affordance/utils/json_loader.py:829 | every number token found is well formed |
| JsonLoader.NumberTokensText | autodsl_affordance/utils/json_loader.py:829 | a number followed by a separator is found as one token, followed by the tokens of the rest |
| JsonLoader.PairRoundTrip | autodsl_affordance/utils/json_loader.py:814-844 | the first and second numbers of the text "x / y" are x and y (for DPS and cooldown alike) |
| JsonLoader.WholeTokenValue | autodsl_affordance/utils/json_loader.py:819-820 | a whole-number token has its integer value |
| JsonLoader.WordRunLength | autodsl_affordance/utils/json_loader.py:871 | the word run is the longest prefix of word characters |
| JsonLoader.BonusHeadAt | autodsl_affordance/utils/json_loader.py:851 | a match of "digits vs" ends within the text |
| JsonLoader.BonusBaseRoundTrip | autodsl_affordance/utils/json_loader.py:846-854 | the bonus base of "n vs Target (+m)" is n |
| JsonLoader.BonusTargetRoundTrip | autodsl_affordance/utils/json_loader.py:866-874 | the bonus target of "n vs target (+m)" is the capitalised target |
| JsonLoader.BonusUpgradeRoundTrip | autodsl_affordance/utils/json_loader.py:856-864 | the bonus upgrade of "n vs target (+m)" is m, the last (+m) on the line |
| JsonLoader.LastUpgradeOfLine | autodsl_affordance/utils/json_loader.py:861 | the greedy match finds the last (+m) of a line |
| JsonLoader.ListItems | autodsl_affordance/utils/json_loader.py:748 | the list form never has more items than the list |
| JsonLoader.NonEmptyStripped | autodsl_affordance/utils/json_loader.py:754 | keeping the non-blank parts never adds parts |
| JsonLoader.ListItemsExact | autodsl_affordance/utils/json_loader.py:748 | an item is kept exactly when it is truthy, rendered and stripped |
| JsonLoader.SplitJoin | autodsl_affordance/utils/json_loader.py:754 | splitting the comma-joined parts gives the parts back |
| JsonLoader.CommaListRoundTrip | autodsl_affordance/utils/json_loader.py:752-757 | a comma-joined string of stripped, comma-free parts reads back as those parts |
| JsonLoader.StringListRoundTrip | autodsl_affordance/utils/json_loader.py:747-751 | a list of stripped strings reads back as itself |
| JsonLoader.EnsureListErrors | autodsl_affordance/utils/json_loader.py:732-769 | the list conversion fails exactly in development mode for None, a list with no kept item, or a string with no non-blank part |
| JsonLoader.SafeGetNumeric | autodsl_affordance/utils/json_loader.py:684-730 | the key loop computes the numeric-lookup specification |
| JsonLoader.NumericFromSource | autodsl_affordance/utils/json_loader.py:706-724 | outside development mode a value is always found; a value found is the default or comes from a present key |
| JsonLoader.SafeNumericSource | autodsl_affordance/utils/json_loader.py:700-730 | the same for any data, a non-dictionary giving the default or an error |
| JsonLoader.SafeNumericFirstPresent | autodsl_affordance/utils/json_loader.py:706-711 | the first present key with a numeric value decides the result |
| JsonLoader.LeadingIntOfString | autodsl_affordance/utils/json_loader.py:712-717 | a string starting with a whole number reads as that integer |
| JsonLoader.CheckSection | autodsl_affordance/utils/json_loader.py:271-285 | the section loop computes the missing-field specification |
| JsonLoader.ValidateDataIntegrity | autodsl_affordance/utils/json_loader.py:256-296 | the integrity loops compute the integrity specification |
| JsonLoader.MissingInExact | autodsl_affordance/utils/json_loader.py:271-285 | a field is reported missing exactly when it is required and the section does not hold it |
| JsonLoader.MissingInScalar | autodsl_affordance/utils/json_loader.py:276-285 | a section of a type without membership makes the check raise |
| JsonLoader.MissingInObject | autodsl_affordance/utils/json_loader.py:271-285 | checking a dictionary section never raises |
| JsonLoader.IntegrityReportExact | autodsl_affordance/utils/json_loader.py:268-285 | the report lists exactly the missing required fields, each under its section |
| JsonLoader.IntegrityRaisesOnlyInDevMode | autodsl_affordance/utils/json_loader.py:287-294 | with dictionary sections, validation raises exactly in development mode with a field missing |
| Migrate.FunctionDict.constructor | autodsl_affordance/core/linkage_graph/prefab_functions/utils/migrate_prefab_functions.py:109-110 | the dictionary starts with the given fields |
| Migrate.FunctionDict.StandardizeEnums | autodsl_affordance/core/linkage_graph/prefab_functions/utils/migrate_prefab_functions.py:159-191 | the dictionary afterwards is the enum standardisation of what it was |
| Migrate.FunctionDict.StandardizeFields | autodsl_affordance/core/linkage_graph/prefab_functions/utils/migrate_prefab_functions.py:123-157 | the dictionary afterwards is the field standardisation of what it was |
| Migrate.FunctionDict.FillDefault | autodsl_affordance/core/linkage_graph/prefab_functions/utils/migrate_prefab_functions.py:142-154 | a missing field with a default gains it; anything else is left as it was |
| Migrate.FunctionDict.OrganizeByLinkageType | autodsl_affordance/core/linkage_graph/prefab_functions/utils/migrate_prefab_functions.py:193-202 | the dictionary afterwards is the linkage organisation of what it was |
| Migrate.FunctionDict.StandardizeFunctionId | autodsl_affordance/core/linkage_graph/prefab_functions/utils/migrate_prefab_functions.py:204-233 | raises exactly when the id or linkage type has no usable text form, then changing nothing; otherwise the id is standardised |
| Migrate.MigrateFunction | autodsl_affordance/core/linkage_graph/prefab_functions/utils/migrate_prefab_functions.py:99-121 | a fresh copy is standardised, organised and given an id; it raises exactly when the id step does, and the original is untouched |
| Migrate.FunctionList.constructor | autodsl_affordance/core/linkage_graph/prefab_functions/utils/migrate_prefab_functions.py:235-246 | the list starts with the given functions |
| Migrate.ValidateFunctions | autodsl_affordance/core/linkage_graph/prefab_functions/utils/migrate_prefab_functions.py:235-271 | the list afterwards holds exactly the accepted functions, in order, and the result is true iff any remain |
| Migrate.FilledFields | autodsl_affordance/core/linkage_graph/prefab_functions/utils/migrate_prefab_functions.py:141-154 | filling keeps every existing field, adds only defaulted keys, and adds every defaulted key |
| Migrate.EnumsEffect | autodsl_affordance/core/linkage_graph/prefab_functions/utils/migrate_prefab_functions.py:159-191 | afterwards function_type, tactic_category and execution_type exist and are valid; other fields are kept, and already valid values too |
| Migrate.EnumsIdempotent | autodsl_affordance/core/linkage_graph/prefab_functions/utils/migrate_prefab_functions.py:159-191 | standardising the enums twice is standardising them once |
| Migrate.StandardizedFields | autodsl_affordance/core/linkage_graph/prefab_functions/utils/migrate_prefab_functions.py:136-157 | afterwards strategy_description, tactic_category, linkage_type, execution_type and execution_flow exist and the enums are valid |
| Migrate.StandardizedSynergy | autodsl_affordance/core/linkage_graph/prefab_functions/utils/migrate_prefab_functions.py:131-133 | synergy_type is removed exactly when linkage_type is also present, and kept otherwise |
| Migrate.StandardizedKeeps | autodsl_affordance/core/linkage_graph/prefab_functions/utils/migrate_prefab_functions.py:123-157 | any other field present is kept unchanged |
| Migrate.OrganizeAfterStandardize | autodsl_affordance/core/linkage_graph/prefab_functions/utils/migrate_prefab_functions.py:113-117 | organising by linkage type after standardisation changes nothing |
| Migrate.RaceOfRaises | autodsl_affordance/core/linkage_graph/prefab_functions/utils/migrate_prefab_functions.py:209-217 | the race lookup raises exactly for an id that supports no membership test |
| Migrate.WithIdRaises | autodsl_affordance/core/linkage_graph/prefab_functions/utils/migrate_prefab_functions.py:204-233 | the id step raises exactly when the id supports no membership test or the linkage type is not a string |
| Migrate.LinkageLabelRaises | autodsl_affordance/core/linkage_graph/prefab_functions/utils/migrate_prefab_functions.py:219-222 | the linkage label raises exactly when linkage_type is not a string |
| Migrate.GeneratedIdIsUnknownRace | autodsl_affordance/core/linkage_graph/prefab_functions/utils/migrate_prefab_functions.py:209-233 | an id is generated only for a falsy id, which names no race, so every generated id is `UNKNOWN_<LINKAGE>_<suffix>` |
| Migrate.WithIdValue | autodsl_affordance/core/linkage_graph/prefab_functions/utils/migrate_prefab_functions.py:204-233 | a truthy id is kept; an empty one is replaced by the id generated from the race, the linkage label and the suffix |
| Migrate.WithIdChangesOnlyEmptyId | autodsl_affordance/core/linkage_graph/prefab_functions/utils/migrate_prefab_functions.py:227-233 | the id step changes only function_id, only when it was empty, and leaves a truthy id |
| Migrate.WithIdStable | autodsl_affordance/core/linkage_graph/prefab_functions/utils/migrate_prefab_functions.py:227-233 | a second id step changes nothing |
| Migrate.AcceptedExact | autodsl_affordance/core/linkage_graph/prefab_functions/utils/migrate_prefab_functions.py:250-261 | a function is kept exactly when it is in the list and accepted, and the list never grows |
| Sentry.ProtossSentry.constructor | autodsl_affordance/races/protoss/ground_units/gateway_units/sentry.py:8-29 | a new sentry has 50 energy, stands at the origin and carries the given abilities |
| Sentry.ProtossSentry.CreateForceField | autodsl_affordance/races/protoss/ground_units/gateway_units/sentry.py:377-427 | the result and the new state are those of the force-field step on the old state |
| Sentry.ProtossSentry.ActivateGuardianShield | autodsl_affordance/races/protoss/ground_units/gateway_units/sentry.py:429-481 | the result and the new state are those of the guardian-shield step on the old state |
| Sentry.ProtossSentry.CreateHallucination | autodsl_affordance/races/protoss/ground_units/gateway_units/sentry.py:483-525 | the result and the new state are those of the hallucination step on the old state |
| Sentry.ProtossSentry.RetreatWhenLowEnergy | autodsl_affordance/races/protoss/ground_units/gateway_units/sentry.py:569-588 | retreat is advised exactly when the energy percentage, which equals the energy, is below the threshold |
| Sentry.ForceFieldEffect | autodsl_affordance/races/protoss/ground_units/gateway_units/sentry.py:388-425 | a refusal changes nothing; a success spends the cost, never below zero, starts the cooldown and keeps the position |
| Sentry.ForceFieldSucceedsIff | autodsl_affordance/races/protoss/ground_units/gateway_units/sentry.py:388-409 | a force field succeeds exactly when the ability exists, the energy covers the cost, it is off cooldown and the target is within range |
| Sentry.ForceFieldTwice | autodsl_affordance/races/protoss/ground_units/gateway_units/sentry.py:399-418 | right after a force field with a positive cooldown a second one is refused for cooldown or energy |
| Sentry.GuardianShieldEffect | autodsl_affordance/races/protoss/ground_units/gateway_units/sentry.py:438-479 | an active shield is refused; a refusal changes nothing; a success spends the cost, activates the shield and starts its cooldown |
| Sentry.GuardianShieldTwice | autodsl_affordance/races/protoss/ground_units/gateway_units/sentry.py:444-470 | a second activation right after a success is refused as already active |
| Sentry.HallucinationEffect | autodsl_affordance/races/protoss/ground_units/gateway_units/sentry.py:493-523 | a refusal changes nothing; a success needs the ability and the energy, spends the cost and starts the cooldown |
| Sentry.EnergyStaysNonNegative | autodsl_affordance/races/protoss/ground_units/gateway_units/sentry.py:394-415 | no ability takes non-negative energy below zero |
| Sentry.NoRetreatMeansEnoughEnergy | autodsl_affordance/races/protoss/ground_units/gateway_units/sentry.py:394-397 | when retreat is not advised at the force-field cost as threshold, a force field is never refused for low energy |
| Immortal.ProtossImmortal.constructor | autodsl_affordance/races/protoss/ground_units/robotics_units/immortal.py:22-24 | a new immortal has its barrier down and off cooldown |
| Immortal.ProtossImmortal.ActivateBarrier | autodsl_affordance/races/protoss/ground_units/robotics_units/immortal.py:274-306 | the result and the new barrier state are those of the activation step on the old state |
| Immortal.ProtossImmortal.TakeHighDamage | autodsl_affordance/races/protoss/ground_units/robotics_units/immortal.py:411-451 | the report and the new barrier state are those of the high-damage step on the old state |
| Immortal.ProtossImmortal.RetreatIfBarrierDown | autodsl_affordance/races/protoss/ground_units/robotics_units/immortal.py:470-482 | retreat is advised exactly while the barrier is cooling down |
| Immortal.ProtossImmortal.CounterArmoredUnits | autodsl_affordance/races/protoss/ground_units/robotics_units/immortal.py:337-385 | the loop's report is the counter report of the targets with the base and bonus damage read from the attack data |
| Immortal.ActivateBarrierEffect | autodsl_affordance/races/protoss/ground_units/robotics_units/immortal.py:285-300 | activation is refused exactly while cooling down, then changing nothing; otherwise the barrier goes up with the barrier's cooldown |
| Immortal.RetreatMatchesRefusal | autodsl_affordance/races/protoss/ground_units/robotics_units/immortal.py:286-288 | retreat is advised exactly when an activation would be refused |
| Immortal.HighDamageTrigger | autodsl_affordance/races/protoss/ground_units/robotics_units/immortal.py:424-442 | the barrier triggers exactly when the damage exceeds the threshold and it is off cooldown; otherwise the state is unchanged |
| Immortal.HighDamageMitigation | autodsl_affordance/races/protoss/ground_units/robotics_units/immortal.py:431-449 | with the barrier up the damage taken is the damage above the shield, never negative, and the mitigation plus the damage taken is the damage; otherwise all damage is taken |
| Immortal.TriggeredThenRefused | autodsl_affordance/races/protoss/ground_units/robotics_units/immortal.py:425-428 | after the barrier triggers, with a positive cooldown, a manual activation is refused |
| Immortal.HighValueNamesAreArmored | autodsl_affordance/races/protoss/ground_units/robotics_units/immortal.py:356-368 | every high-value target is also armored, so it is attacked |
| Immortal.AttackedExact | autodsl_affordance/races/protoss/ground_units/robotics_units/immortal.py:353-368 | exactly the armored targets are attacked, exactly the armored high-value targets are listed, and damage is recorded for exactly the attacked ones |
| Immortal.RatingMonotone | autodsl_affordance/races/protoss/ground_units/robotics_units/immortal.py:374-381 | more armored or more high-value targets never lower the effectiveness rating |
| Oracle.ProtossOracle.constructor | autodsl_affordance/races/protoss/air_units/stargate_units/oracle.py:188-196 | a new oracle has 50 energy, the beam off and no wards |
| Oracle.ProtossOracle.CastRevelation | autodsl_affordance/races/protoss/air_units/stargate_units/oracle.py:264-292 | the result and the new state are those of the revelation step on the old state |
| Oracle.ProtossOracle.ActivatePulsarBeam | autodsl_affordance/races/protoss/air_units/stargate_units/oracle.py:294-330 | the result and the new state are those of the beam activation step |
| Oracle.ProtossOracle.DeactivatePulsarBeam | autodsl_affordance/races/protoss/air_units/stargate_units/oracle.py:332-350 | the result and the new state are those of the beam deactivation step |
| Oracle.ProtossOracle.DeployStasisWard | autodsl_affordance/races/protoss/air_units/stargate_units/oracle.py:352-393 | the result and the new state are those of the ward deployment step |
| Oracle.ProtossOracle.RegenEnergy | autodsl_affordance/races/protoss/air_units/stargate_units/oracle.py:395-408 | the energy becomes the capped regeneration, and the report gives the energy before, after and the difference |
| Oracle.SpendingRefusals | autodsl_affordance/races/protoss/air_units/stargate_units/oracle.py:264-393 | revelation and a ward are refused exactly when the energy is below their cost, then changing nothing; a revelation spends exactly its cost |
| Oracle.BeamToggle | autodsl_affordance/races/protoss/air_units/stargate_units/oracle.py:294-350 | the beam cannot be switched on while on or off while off; each success flips it, switching on spends the cost and switching off is free |
| Oracle.BeamOnThenOff | autodsl_affordance/races/protoss/air_units/stargate_units/oracle.py:294-350 | switching the beam on and off restores the state except for the energy paid |
| Oracle.WardAppended | autodsl_affordance/races/protoss/air_units/stargate_units/oracle.py:352-393 | a deployed ward is appended, earlier wards are kept, and its id is its index |
| Oracle.SpendLeavesNonNegative | autodsl_affordance/races/protoss/air_units/stargate_units/oracle.py:264-393 | a successful cast never leaves negative energy |
| Oracle.RegenCapped | autodsl_affordance/races/protoss/air_units/stargate_units/oracle.py:395-408 | regeneration never exceeds 100, adds exactly the amount below the cap, never lowers energy within the cap, and is idempotent at the cap |
| Medivac.TerranMedivac.constructor | autodsl_affordance/races/terran/air_units/starport_units/medivac.py:23-30 | a new medivac has no energy and an empty hold |
| Medivac.TerranMedivac.HealUnit | autodsl_affordance/races/terran/air_units/starport_units/medivac.py:42-48 | heals exactly when one energy is left, spending it, and keeps energy non-negative |
| Medivac.TerranMedivac.UseBoost | autodsl_affordance/races/terran/air_units/starport_units/medivac.py:50-56 | boosts exactly when 50 energy are left, spending them, and keeps energy non-negative |
| Medivac.TerranMedivac.LoadUnit | autodsl_affordance/races/terran/air_units/starport_units/medivac.py:58-65 | loads exactly while the hold is below capacity, appending the unit, and never overfills the hold |
| Medivac.TerranMedivac.UnloadUnit | autodsl_affordance/races/terran/air_units/starport_units/medivac.py:67-73 | unloads exactly when the unit is aboard, removing its first occurrence |
| Medivac.RemoveFirstLength | autodsl_affordance/races/terran/air_units/starport_units/medivac.py:69-70 | unloading a unit aboard shortens the hold by one, and unloading one not aboard changes nothing |
| Medivac.LoadThenUnload | autodsl_affordance/races/terran/air_units/starport_units/medivac.py:58-73 | loading and then unloading a unit that was not aboard gives the hold back |
| Medivac.CargoCounts | autodsl_affordance/races/terran/air_units/starport_units/medivac.py:58-73 | loading adds one copy of the unit, unloading removes one, and no other unit's count changes |
| HighTemplar.ProtossHighTemplar.constructor | autodsl_affordance/races/protoss/ground_units/gateway_units/high_templar.py:133 | a new templar starts with the start energy statistic, 50 by default, and nothing reserved |
| HighTemplar.ProtossHighTemplar.CastPsionicStorm | autodsl_affordance/races/protoss/ground_units/gateway_units/high_templar.py:161-189 | the result and the new energy are those of the storm step on the old energy |
| HighTemplar.ProtossHighTemplar.CastFeedback | autodsl_affordance/races/protoss/ground_units/gateway_units/high_templar.py:191-225 | the result and the new energy are those of the feedback step on the old energy |
| HighTemplar.ProtossHighTemplar.ReserveEnergy | autodsl_affordance/races/protoss/ground_units/gateway_units/high_templar.py:246-253 | reserves exactly when the energy plus the amount stays within the maximum, spending nothing |
| HighTemplar.ProtossHighTemplar.RegenEnergy | autodsl_affordance/races/protoss/ground_units/gateway_units/high_templar.py:255-265 | the new energy, also returned, is the capped regeneration of the old one |
| HighTemplar.StormSpendsOnlyWhenAllowed | autodsl_affordance/races/protoss/ground_units/gateway_units/high_templar.py:161-189 | a storm is cast exactly when researched and affordable, spending its cost and leaving non-negative energy; otherwise nothing is spent and an unresearched storm is reported as such |
| HighTemplar.FeedbackRefusals | autodsl_affordance/races/protoss/ground_units/gateway_units/high_templar.py:191-225 | feedback applies exactly when affordable on a target with energy, spending its cost; otherwise nothing is spent |
| HighTemplar.FeedbackDamage | autodsl_affordance/races/protoss/ground_units/gateway_units/high_templar.py:206 | with the default multiplier the damage is the target's energy rounded toward zero |
| HighTemplar.RegenBounded | autodsl_affordance/races/protoss/ground_units/gateway_units/high_templar.py:255-265 | regeneration never exceeds the maximum and, for a non-negative rate and time, never lowers energy within the maximum |
| UnitCommon.Truncate | autodsl_affordance/races/protoss/ground_units/gateway_units/high_templar.py:206 | Python's int() of a real rounds toward zero: the result is within 1 of the value, on the side of 0 |

## Left out

General:
- Logging, `print` and warning messages are left out; only the values and dictionary updates that accompany them are modelled.
- Timestamps (`datetime`, `time.time()`) are left out. Where a record carries one, the field is dropped.
- Random and uuid identifiers are parameters: the migration script's uuid suffix is one.
- File and JSON input/output is left out: reading directories and files, `save_*`, `export_to_json`, `load_from_json`, `_load_data` and `_validate_file`. File contents are parameters where an operation reshapes them (`PrefabLoader.FileFunctions`). A file that fails to parse is skipped, as the loader's exception handler does.
- Python floats are exact reals. Rounding with `round(x, n)` in summaries and statistics is not modelled.
- String case mapping is ASCII only, so Unicode case folding is not modelled. The regular-expression classes `\d` and `\w` are read as their ASCII meanings. `\s` and `str.strip()` use Python's full whitespace set.
- Rendering a non-string value with `str()` (a float, list or dict item in `_ensure_list`) is a function parameter, not Python's formatting.
- The JSON schema validator (jsonschema) is a function parameter, `validate`.
- A missing key and a key holding `None` are the same in the typed prefab-function record and in the manager's configuration dictionary.
- PrefabManager.EffectiveConfig: a key set to `None` reads as missing. In Python a dictionary whose keys are all `None` is non-empty, so `config or defaults` keeps it, `top_k` and `cache_size` come out `None` and the monitor is off. The model gives 3, 100 and the monitor on for that dictionary, and 3 or 100 for any single `None` key.

Linkage graph, traversal and encoder:
- `get_node` and `get_edge` are plain dictionary lookups and are not modelled.
- `build_from_classes` loads Python classes by reflection. The method signatures the traversal strategy reads through `inspect` are fields of a node (`NodeMethod`).
- `get_linkage_summary`, `get_graph_stats`, `__str__` and `__repr__` are not modelled.
- The encoder's `save_prefab_functions` and the free-text descriptions of generated functions are not modelled; ids, types, units and counters are.
- PrefabEncoder.FindConnectedComponents: requires the subgraph to be symmetric and well formed. Its only caller passes the output of `_build_subgraph`, which is proved to be both.
- LinkageGraph.ProgramLinkageGraph.FindPath: only soundness is proved: a returned path is a walk of 1 to `max_depth` stored edges from start to end. Completeness, that `None` means no such walk exists, is not proved.
- TraversalStrategy.BuildEdges: the evidence list and description each rule attaches to its edge are not modelled. Built edges carry no evidence and an empty description, and the rule's source method and confidence are kept.
- PrefabEncoder.FindConnectedComponents: the exact breadth-first order inside a component is not pinned. What is proved is that each node neighbours an earlier one and that the roots come in key order, so each component's node set is fixed.
- EncodeCliqueFunctions and EncodePrefabFunctions (PrefabEncoder.PrefabFunctionEncoder): because the order inside a component is not pinned, the order of the cliques found in a component, and so their numbering, is not pinned either.
- LinkageEdge.FromDict: raises `TypeError` for a weight or confidence that is not a number, a `discovered_in_round` that is not an integer, a non-string `source`, an evidence value that is not a list of strings, a non-dictionary `context_info`, or non-string node ids, description or method names. `from_dict` in edge.py passes these values on unchecked, because the typed record here has no place for them.
- TraversalStrategy.TagRound: requires distinct edge objects. `execute_phase` tags the edges it has just created, so they are distinct.

Function repository (linkage-graph manager):
- The remaining library operations are not part of this model: `reload_prefab_functions`, `merge_prefab_functions`, `load_race_specific_functions`, `update_function`, `get_race_functions`, `get_map_specific_functions`, `get_function_by_id`, `get_functions_by_type`, `get_functions_by_unit`, `get_functions_by_execution_type`, `aggregate_parameters`, `aggregate_all_parameters`, `generate_function_signature`, `generate_all_signatures` and `save_prefab_functions`.

Prefab system:
- In the handler, these are not modelled: `execute_functions` and `update_unit_pool`, which call the game environment; `_analyze_terrain` and `_evaluate_positioning`, which are float geometry; the synergy scoring group (`calculate_synergy_score` through `explain_synergy_benefits`); the prompt text of `get_prefab_info_for_prompt`; `load_prefab_functions`; and `_generate_optimization_suggestion`.
- The integer-to-name table `get_unit_name` is left out: units arrive with their type names.
- The library behind the handler is a parameter: `search_functions` answers per unit and `get_all_functions`.
- Handler.PrefabFunctionHandler.ScoreFunctions: requires every function to carry `function_id` and `name`. The source raises `KeyError` on a function without them.
- Handler.ScoredList, Handler.ScoreAll, Handler.FunctionRace, Handler.FunctionRelevance, Handler.UsageRecords and Handler.RelevanceRecords: the same `function_id`/`name` precondition.
- Handler.PrefabFunctionHandler.SelectOptimalFunctions and Handler.PrefabFunctionHandler.ReportAll: the same precondition on the ranked functions they report.
- PrefabManager.PrefabFunctionManager.GetOptimalFunctions: requires every catalogued function to carry `function_id` and `name`, as scoring reads both.
- PrefabManager.PrefabFunctionManager.ComputeOptimal and PrefabManager.PrefabFunctionManager.Ranked: the same precondition.
- The manager's constructor calls `PrefabFunctionHandler()` without the argument its constructor requires, so the source raises `TypeError` there. The model's constructor takes the handler and the loaded catalogue as parameters instead.
- PrefabManager.PrefabFunctionManager.UpdateFunctionScore: the copies in the by-race and by-type lists and in the cache are found by value equality, standing in for object identity. A different dictionary with equal contents would also be updated, and with duplicate ids in `all` only the first is updated.
- Manager operations not in this model: `execute_function`, `get_function_details` (a loader lookup, modelled as `PrefabLoader.GetFunctionById`), `_calculate_metrics`, `_update_function_score`, `get_execution_history` and `clear_history`.

Utilities:
- JSON loader operations not modelled: `load_unit_data` and `load_and_apply`; path search and the data-version check; and the `_apply_*` and `_process_*_ability` functions that copy fields onto a unit instance.
- Migration operations not modelled: `migrate_file`, `_migrate_functions`, `_fix_validation_errors`, `migrate_all` and the command-line entry point. These are file handling and a repair loop driven by jsonschema error messages.

Units:
- Sentry: `maintain_position`, `move_to_position`, `monitor_energy_level`, `evaluate_field_effectiveness`, `maintain_defensive_position`, `send_hallucination_to_area`, `observe_enemy_activities` and `report_findings` are not modelled; they are printing and movement.
- Sentry: the range check compares squared distances, which agrees with the square-root test for non-negative ranges.
- Immortal: `track_cooldown`, `position_for_max_effect`, `focus_fire_highest_threat`, `maintain_formation`, `retreat_if_outnumbered`, `deploy_from_prism`, `engage_tank_line` and `position_warp_prism` are not modelled; they are printing and geometry.
- Immortal: each `damage_dealt` entry of `counter_armored_units` keeps only its `total`; the base, bonus and bonus-type fields, which are the same for every target, are dropped.
- Oracle: `harass_workers` and `scout_enemy_base` are not modelled; they wrap the modelled Pulsar Beam and Revelation in result messages and printing.
- Medivac: a carried unit is an identity number, and `cargo_size` is a whole number.
- Medivac.TerranMedivac.HealUnit: requires the class invariant `Valid()`, meaning non-negative energy and cargo within capacity. The constructor establishes it and every method keeps it.
- Medivac.TerranMedivac.UseBoost, Medivac.TerranMedivac.LoadUnit and Medivac.TerranMedivac.UnloadUnit: the same `Valid()` precondition.
- High Templar: `merge_to_archon`, an `isinstance` test on another Python object, is not modelled. Nor is `prefab_function_candidates`, a constant list of names.
- UnitCommon.AbilityOf: only the numeric entries of an ability dictionary are kept. An ability dictionary holding only non-numeric entries is truthy in Python, but here it reads as empty.
- Unit loading from JSON and the hard-coded fallback data (`_load_data`, `_parse_json_data`, `_set_hardcoded_data`) are not modelled. Ability dictionaries are parameters.

## Findings

In each case the model follows the code as written: phase 3, the scoring and `get_execution_history` use the as-written definitions. The corrected definition sits beside it, with the evidently intended property proved about it.

| source | as written | input that shows it | evidently intended | confidence | as-written member | corrected member |
|---|---|---|---|---|---|---|
| autodsl_affordance/core/linkage_graph/traversal_strategy.py:320-345 | a node is appended to a role group once per role it lists, and the first five ids of each group are paired | a node "zealot" whose `primary_role` lists Frontline twice gives the association edge zealot–zealot | each node is in a role group at most once, so no self-loop association | not executed | TraversalStrategy.RoleGroupsAsWrittenSelfLoop | TraversalStrategy.RolePairsIntendedDistinct |
| autodsl_affordance/core/prefab_system/handler/prefab_function_handler.py:680-684 | a function on cooldown has its score multiplied by `0.8 + cooldown / 10` | cooldown 3 gives factor 1.1, so the score rises | a penalty of 0.1 per remaining step, a factor of at most 1 that shrinks as the cooldown grows | not executed | Handler.CooldownAsWrittenRewards | Handler.CooldownFactorPenalises |
| autodsl_affordance/core/prefab_system/handler/prefab_function_handler.py:1427 | `history[-limit:]` | limit 0 returns the whole history instead of no records | the last `limit` records, none for limit 0 | not executed | Handler.ZeroLimitReturnsAll | Handler.ExecutionHistory |
