/**
 * The five-phase traversal that discovers edges between unit classes
 * (core/linkage_graph/traversal_strategy.py).
 *
 * Each phase looks for one linkage type.  Most rules have the same shape: for
 * every source node, for every item the rule draws from that node (a listed
 * synergy, a counter, an execution-flow step, a method's parameter type, ...),
 * for every target node, emit an edge when the two ids differ, the item
 * matches the target, and no equal edge is already in the graph.  Those rules
 * are `Rule` values run by one scanning method.  The two association rules
 * that pair members of a group are run by a second method.  Free-text
 * descriptions and evidence sentences are not modelled.
 */
module TraversalStrategy {
  import opened Common
  import opened LinkageEdge

  // --------------------------------------------------------------- phases

  datatype Phase = Phase1Interaction | Phase2Combination | Phase3Association
                 | Phase4Dependency | Phase5Invocation
  {
    /** The enum value. */
    function Value(): (v: nat)
      ensures 1 <= v <= 5
    {
      match this
      case Phase1Interaction => 1
      case Phase2Combination => 2
      case Phase3Association => 3
      case Phase4Dependency => 4
      case Phase5Invocation => 5
    }
  }

  /** `traversal_order`. */
  const TraversalOrder: seq<Phase> :=
    [Phase1Interaction, Phase2Combination, Phase3Association, Phase4Dependency, Phase5Invocation]

  /** `traversal_order.index(p)`. */
  function IndexOfPhase(p: Phase): (i: nat)
    ensures i < |TraversalOrder| && TraversalOrder[i] == p
    ensures i + 1 == p.Value()
  {
    match p
    case Phase1Interaction => 0
    case Phase2Combination => 1
    case Phase3Association => 2
    case Phase4Dependency => 3
    case Phase5Invocation => 4
  }

  /** `get_next_phase`: the first phase, the following one, or `None` after the last. */
  function NextPhase(current: Option<Phase>): (r: Option<Phase>)
    ensures current.None? ==> r == Some(Phase1Interaction)
    ensures current.Some? ==> (r.None? <==> current.value == Phase5Invocation)
    ensures current.Some? && r.Some? ==> r.value.Value() == current.value.Value() + 1
  {
    if current.None? then Some(TraversalOrder[0])
    else
      var i := IndexOfPhase(current.value);
      if i < |TraversalOrder| - 1 then Some(TraversalOrder[i + 1]) else None
  }

  /** Starting from no phase, `NextPhase` visits the five phases in order and then stops. */
  lemma PhaseSequence()
    ensures NextPhase(None) == Some(Phase1Interaction)
    ensures NextPhase(Some(Phase1Interaction)) == Some(Phase2Combination)
    ensures NextPhase(Some(Phase2Combination)) == Some(Phase3Association)
    ensures NextPhase(Some(Phase3Association)) == Some(Phase4Dependency)
    ensures NextPhase(Some(Phase4Dependency)) == Some(Phase5Invocation)
    ensures NextPhase(Some(Phase5Invocation)) == None
  {
  }

  /** `phase_to_linkage_types`. */
  function LinkageTypesFor(p: Phase): (r: seq<LinkageType>)
    ensures |r| == 1
  {
    match p
    case Phase1Interaction => [Interaction]
    case Phase2Combination => [Combination]
    case Phase3Association => [Association]
    case Phase4Dependency => [Dependency]
    case Phase5Invocation => [Invocation]
  }

  function PhaseType(p: Phase): LinkageType
  {
    LinkageTypesFor(p)[0]
  }

  /** Different phases look for different linkage types. */
  lemma PhaseTypeInjective(p: Phase, q: Phase)
    ensures LinkageTypesFor(p) == LinkageTypesFor(q) ==> p == q
    ensures PhaseType(p) == PhaseType(q) ==> p == q
  {
  }

  // ---------------------------------------------------------------- nodes

  /** One entry of `prefab_function_candidates`. */
  datatype Candidate = Candidate(functionName: string, executionFlow: seq<string>)

  /** A `NodeMethod`: its name, its parameters' `type` entries and its return type. */
  datatype NodeMethod = NodeMethod(name: string, paramTypes: seq<string>, returnType: string)

  /**
   * The attributes of a graph node the rules read.  A list attribute that the
   * node lacks is empty; `hasLlmInterface` says whether `llm_interface` is a
   * non-empty dict, and the three lists drawn from it are read only then.
   */
  datatype UnitNode = UnitNode(
    className: string,
    description: string,
    strongAgainst: seq<string>,
    weakAgainst: seq<string>,
    contextSynergies: seq<string>,
    hasLlmInterface: bool,
    commonTactics: seq<string>,
    primaryRoles: seq<string>,
    tacticalKeywords: seq<string>,
    candidates: seq<Candidate>,
    infoSynergies: seq<string>,
    upgrades: seq<(string, string)>,
    abilities: seq<string>,
    methods: seq<NodeMethod>)

  /** `nodes.items()`: ids with their nodes, in insertion order. */
  type NodeList = seq<(string, UnitNode)>

  function Ids(nodes: NodeList): (r: seq<string>)
    ensures |r| == |nodes|
    ensures forall i :: 0 <= i < |nodes| ==> r[i] == nodes[i].0
  {
    if nodes == [] then [] else Ids(nodes[..|nodes| - 1]) + [nodes[|nodes| - 1].0]
  }

  // ---------------------------------------------------------------- rules

  datatype Rule =
    | StrongAgainst | WeakAgainst | ContextSynergy(lt: LinkageType) | CommonTactic
    | FlowStep | RoleComplement | SharedKeywords
    | InfoSynergy | BuildFacility | UpgradeSource | AbilitySupport
    | ParamType | ReturnType | PrefabReference
  {
    /** The linkage type of the edges the rule emits. */
    function Type(): LinkageType
    {
      match this
      case StrongAgainst => Interaction
      case WeakAgainst => Interaction
      case ContextSynergy(lt) => lt
      case CommonTactic => Interaction
      case FlowStep => Combination
      case RoleComplement => Combination
      case SharedKeywords => Combination
      case InfoSynergy => Dependency
      case BuildFacility => Dependency
      case UpgradeSource => Dependency
      case AbilitySupport => Dependency
      case ParamType => Invocation
      case ReturnType => Invocation
      case PrefabReference => Invocation
    }

    /** The `confidence` keyword the rule passes to the edge. */
    function Confidence(): (c: real)
      ensures 0.0 <= c <= 1.0
    {
      match this
      case StrongAgainst => 0.85
      case WeakAgainst => 0.85
      case ContextSynergy(lt) => if lt == Combination then 0.85 else 0.8
      case CommonTactic => 0.75
      case FlowStep => 0.9
      case RoleComplement => 0.85
      case SharedKeywords => 0.75
      case InfoSynergy => 0.85
      case BuildFacility => 0.95
      case UpgradeSource => 0.9
      case AbilitySupport => 0.85
      case ParamType => 0.85
      case ReturnType => 0.8
      case PrefabReference => 0.85
    }
  }

  /** What a rule draws from a source node; `caller` becomes the edge's `source_method`. */
  datatype Item = Item(rule: Rule, text: string, caller: Option<string>)

  function Tag(rule: Rule, texts: seq<string>): (r: seq<Item>)
    ensures |r| == |texts|
    ensures forall i :: 0 <= i < |r| ==> r[i] == Item(rule, texts[i], None)
  {
    if texts == [] then [] else [Item(rule, texts[0], None)] + Tag(rule, texts[1..])
  }

  function FlowSteps(cs: seq<Candidate>): seq<string>
  {
    if cs == [] then [] else cs[0].executionFlow + FlowSteps(cs[1..])
  }

  function NamedCandidates(cs: seq<Candidate>): seq<Item>
  {
    if cs == [] then []
    else (if cs[0].functionName != "" then [Item(PrefabReference, cs[0].functionName, Some(cs[0].functionName))] else [])
         + NamedCandidates(cs[1..])
  }

  function ResearchSources(ups: seq<(string, string)>): seq<string>
  {
    if ups == [] then []
    else (if ups[0].1 != "" then [ups[0].1] else []) + ResearchSources(ups[1..])
  }

  predicate NeedsSupport(ability: string)
  {
    var a := Lower(ability);
    Contains(a, "charge") || Contains(a, "blink") || Contains(a, "force field")
  }

  function SupportAbilities(abs: seq<string>): seq<string>
  {
    if abs == [] then [] else (if NeedsSupport(abs[0]) then [abs[0]] else []) + SupportAbilities(abs[1..])
  }

  function ParamItems(ms: seq<NodeMethod>): seq<Item>
  {
    if ms == [] then []
    else
      (seq(|ms[0].paramTypes|, i requires 0 <= i < |ms[0].paramTypes| => Item(ParamType, ms[0].paramTypes[i], Some(ms[0].name))))
      + ParamItems(ms[1..])
  }

  function ReturnItems(ms: seq<NodeMethod>): seq<Item>
  {
    if ms == [] then [] else [Item(ReturnType, ms[0].returnType, Some(ms[0].name))] + ReturnItems(ms[1..])
  }

  /** The production facility inferred from a lower-cased class name. */
  function InferFacility(cls: string): Option<string>
  {
    if Contains(cls, "gateway") || Contains(cls, "adept") || Contains(cls, "zealot")
       || Contains(cls, "stalker") || Contains(cls, "sentry") || Contains(cls, "high templar") then Some("Gateway")
    else if Contains(cls, "stargate") || Contains(cls, "phoenix") || Contains(cls, "oracle") then Some("Stargate")
    else if Contains(cls, "robotics") || Contains(cls, "immortal") || Contains(cls, "colossus")
       || Contains(cls, "disruptor") || Contains(cls, "observer") then Some("Robotics Facility")
    else None
  }

  const Frontline: string := "前线"
  const Tank: string := "肉盾"
  const Backline: string := "后排"
  const DamageDealer: string := "输出"

  /** The items a rule draws from a source node, in the loops' order. */
  function RuleItems(rule: Rule, n: UnitNode): seq<Item>
  {
    match rule
    case StrongAgainst => Tag(rule, n.strongAgainst)
    case WeakAgainst => Tag(rule, n.weakAgainst)
    case ContextSynergy(_) => Tag(rule, n.contextSynergies)
    case CommonTactic => if n.hasLlmInterface then Tag(rule, n.commonTactics) else []
    case FlowStep => Tag(rule, FlowSteps(n.candidates))
    case RoleComplement =>
      if n.hasLlmInterface && (Frontline in n.primaryRoles || Tank in n.primaryRoles)
      then [Item(rule, "", None)] else []
    case SharedKeywords => if n.hasLlmInterface then [Item(rule, "", None)] else []
    case InfoSynergy => Tag(rule, n.infoSynergies)
    case BuildFacility =>
      var f := InferFacility(Lower(n.className));
      if f.Some? then [Item(rule, f.value, None)] else []
    case UpgradeSource => Tag(rule, ResearchSources(n.upgrades))
    case AbilitySupport => Tag(rule, SupportAbilities(n.abilities))
    case ParamType => ParamItems(n.methods)
    case ReturnType => ReturnItems(n.methods)
    case PrefabReference => NamedCandidates(n.candidates)
  }

  /** The items of all the rules a loop body runs for one source node. */
  function PassItems(pass: seq<Rule>, n: UnitNode): seq<Item>
  {
    if pass == [] then [] else RuleItems(pass[0], n) + PassItems(pass[1..], n)
  }

  /** Every item of a pass belongs to one of the pass's rules. */
  lemma {:induction false} PassItemsRules(pass: seq<Rule>, n: UnitNode, it: Item)
    requires it in PassItems(pass, n)
    ensures it.rule in pass
  {
    if pass != [] {
      if it !in RuleItems(pass[0], n) {
        PassItemsRules(pass[1..], n, it);
      } else {
        RuleItemsRule(pass[0], n, it);
      }
    }
  }

  lemma RuleItemsRule(rule: Rule, n: UnitNode, it: Item)
    requires it in RuleItems(rule, n)
    ensures it.rule == rule
  {
    match rule
    case FlowStep =>
    case ParamType => ParamItemsRule(n.methods, it);
    case ReturnType => ReturnItemsRule(n.methods, it);
    case PrefabReference => NamedCandidatesRule(n.candidates, it);
    case _ =>
  }

  lemma {:induction false} ParamItemsRule(ms: seq<NodeMethod>, it: Item)
    requires it in ParamItems(ms)
    ensures it.rule == ParamType
  {
    if ms != [] {
      var head := seq(|ms[0].paramTypes|, i requires 0 <= i < |ms[0].paramTypes| => Item(ParamType, ms[0].paramTypes[i], Some(ms[0].name)));
      if it !in head {
        ParamItemsRule(ms[1..], it);
      }
    }
  }

  lemma {:induction false} ReturnItemsRule(ms: seq<NodeMethod>, it: Item)
    requires it in ReturnItems(ms)
    ensures it.rule == ReturnType
  {
    if ms != [] && it != ReturnItems(ms)[0] {
      ReturnItemsRule(ms[1..], it);
    }
  }

  lemma {:induction false} NamedCandidatesRule(cs: seq<Candidate>, it: Item)
    requires it in NamedCandidates(cs)
    ensures it.rule == PrefabReference
  {
    if cs != [] {
      var head := if cs[0].functionName != "" then [Item(PrefabReference, cs[0].functionName, Some(cs[0].functionName))] else [];
      if it !in head {
        NamedCandidatesRule(cs[1..], it);
      }
    }
  }

  function KeywordSet(s: seq<string>): set<string>
  {
    set k | k in s
  }

  /** Whether an item of the source node points at the target node. */
  predicate Matches(it: Item, src: UnitNode, tgt: UnitNode)
  {
    var cls := Lower(tgt.className);
    var text := Lower(it.text);
    match it.rule
    case StrongAgainst => Contains(cls, text)
    case WeakAgainst => Contains(cls, text)
    case ContextSynergy(_) => Contains(text, cls) || Contains(text, Lower(tgt.description))
    case CommonTactic => Contains(text, cls) || Contains(text, Lower(tgt.description))
    case FlowStep => Contains(text, cls) || Contains(text, Lower(tgt.description))
    case RoleComplement =>
      tgt.hasLlmInterface && (Backline in tgt.primaryRoles || DamageDealer in tgt.primaryRoles)
    case SharedKeywords =>
      tgt.hasLlmInterface && |KeywordSet(src.tacticalKeywords) * KeywordSet(tgt.tacticalKeywords)| >= 2
    case InfoSynergy => Contains(cls, text)
    case BuildFacility => Contains(cls, text)
    case UpgradeSource =>
      Contains(text, cls) || Contains(text, "twilight") || Contains(text, "forge") || Contains(text, "cybernetics")
    case AbilitySupport => cls in ["twilight council", "cybernetics core", "forge"]
    case ParamType => Contains(cls, text)
    case ReturnType => Contains(cls, text)
    case PrefabReference => Contains(text, cls)
  }

  // ---------------------------------------------------------- edge specs

  /** An edge a rule asks for: the constructor's endpoints, type and keywords. */
  datatype EdgeSpec = EdgeSpec(src: string, tgt: string, linkageType: LinkageType,
                               sourceMethod: Option<string>, confidence: real)

  /** The key of the edge `GraphEdge(src, tgt, type)` builds: its direction is the default. */
  function SpecKey(s: EdgeSpec): EdgeKey
  {
    EdgeKey(s.src, s.tgt, s.linkageType, DefaultDirection(s.linkageType))
  }

  /**
   * `edge in existing_edges`, with the set of existing edges given by their
   * hash tuples: a set lookup finds an equal edge exactly when the hash tuples
   * agree (`KnownIffEqualExists`).
   */
  predicate Known(existing: set<HashKey>, k: EdgeKey)
  {
    Hash(k) in existing
  }

  /** The hash tuples of a set of edge keys. */
  function Hashes(keys: set<EdgeKey>): set<HashKey>
  {
    set x | x in keys :: Hash(x)
  }

  /** Looking a key up among the hashes finds it iff an equal edge is present. */
  lemma KnownIffEqualExists(keys: set<EdgeKey>, k: EdgeKey)
    ensures Known(Hashes(keys), k) <==> exists x :: x in keys && SameEdge(x, k)
  {
    if Known(Hashes(keys), k) {
      var x :| x in keys && Hash(x) == Hash(k);
      SameEdgeIffSameHash(x, k);
    }
    if x :| x in keys && SameEdge(x, k) {
      SameEdgeIffSameHash(x, k);
    }
  }

  function Proposal(src: (string, UnitNode), it: Item, tgt: (string, UnitNode)): EdgeSpec
  {
    EdgeSpec(src.0, tgt.0, it.rule.Type(), it.caller, it.rule.Confidence())
  }

  /** The innermost loop body: at most one edge for one source, item and target. */
  function Emit(src: (string, UnitNode), it: Item, tgt: (string, UnitNode), existing: set<HashKey>): seq<EdgeSpec>
  {
    if src.0 != tgt.0 && Matches(it, src.1, tgt.1) && !Known(existing, SpecKey(Proposal(src, it, tgt)))
    then [Proposal(src, it, tgt)] else []
  }

  function ScanTargets(src: (string, UnitNode), it: Item, targets: NodeList, existing: set<HashKey>): seq<EdgeSpec>
  {
    if targets == [] then []
    else ScanTargets(src, it, targets[..|targets| - 1], existing) + Emit(src, it, targets[|targets| - 1], existing)
  }

  function ScanItems(src: (string, UnitNode), items: seq<Item>, nodes: NodeList, existing: set<HashKey>): seq<EdgeSpec>
  {
    if items == [] then []
    else ScanItems(src, items[..|items| - 1], nodes, existing) + ScanTargets(src, items[|items| - 1], nodes, existing)
  }

  /** What one rule loop (or, in phase 1, one loop body with four rules) emits. */
  function ScanSources(pass: seq<Rule>, sources: NodeList, nodes: NodeList, existing: set<HashKey>): seq<EdgeSpec>
  {
    if sources == [] then []
    else
      var src := sources[|sources| - 1];
      ScanSources(pass, sources[..|sources| - 1], nodes, existing) + ScanItems(src, PassItems(pass, src.1), nodes, existing)
  }

  /** The facts every scanned edge satisfies. */
  ghost predicate ScanFacts(s: EdgeSpec, pass: seq<Rule>, sources: NodeList, nodes: NodeList, existing: set<HashKey>)
  {
    s.src != s.tgt
    && !Known(existing, SpecKey(s))
    && s.src in Ids(sources)
    && s.tgt in Ids(nodes)
    && (exists r :: r in pass && s.linkageType == r.Type() && s.confidence == r.Confidence())
  }

  lemma {:induction false} ScanTargetsFacts(pass: seq<Rule>, src: (string, UnitNode), it: Item, targets: NodeList,
                                            sources: NodeList, nodes: NodeList, existing: set<HashKey>)
    requires it.rule in pass && src.0 in Ids(sources)
    requires forall t :: t in targets ==> t.0 in Ids(nodes)
    ensures forall s :: s in ScanTargets(src, it, targets, existing) ==> ScanFacts(s, pass, sources, nodes, existing)
  {
    if targets != [] {
      var last := targets[|targets| - 1];
      ScanTargetsFacts(pass, src, it, targets[..|targets| - 1], sources, nodes, existing);
      assert last in targets;
    }
  }

  lemma {:induction false} ScanItemsFacts(pass: seq<Rule>, src: (string, UnitNode), items: seq<Item>,
                                          sources: NodeList, nodes: NodeList, existing: set<HashKey>)
    requires forall it :: it in items ==> it.rule in pass
    requires src.0 in Ids(sources)
    ensures forall s :: s in ScanItems(src, items, nodes, existing) ==> ScanFacts(s, pass, sources, nodes, existing)
  {
    if items != [] {
      ScanItemsFacts(pass, src, items[..|items| - 1], sources, nodes, existing);
      forall t | t in nodes
        ensures t.0 in Ids(nodes)
      {
        var k :| 0 <= k < |nodes| && nodes[k] == t;
        assert Ids(nodes)[k] == t.0;
      }
      ScanTargetsFacts(pass, src, items[|items| - 1], nodes, sources, nodes, existing);
    }
  }

  /**
   * No scanned edge is a self-loop or equal to an existing edge; its source is
   * a scanned node, its target a node of the graph, and its type and
   * confidence are those of one of the rules.
   */
  lemma {:induction false} ScanSourcesFacts(pass: seq<Rule>, sources: NodeList, nodes: NodeList, existing: set<HashKey>)
    ensures forall s :: s in ScanSources(pass, sources, nodes, existing) ==> ScanFacts(s, pass, sources, nodes, existing)
  {
    if sources != [] {
      var init := sources[..|sources| - 1];
      var src := sources[|sources| - 1];
      ScanSourcesFacts(pass, init, nodes, existing);
      assert Ids(sources) == Ids(init) + [src.0];
      forall s | s in ScanSources(pass, init, nodes, existing)
        ensures ScanFacts(s, pass, sources, nodes, existing)
      {
        assert ScanFacts(s, pass, init, nodes, existing);
      }
      forall it | it in PassItems(pass, src.1)
        ensures it.rule in pass
      {
        PassItemsRules(pass, src.1, it);
      }
      ScanItemsFacts(pass, src, PassItems(pass, src.1), sources, nodes, existing);
    }
  }

  /** The innermost loop: one source and one item against every target. */
  method ScanTargetsLoop(src: (string, UnitNode), it: Item, nodes: NodeList, existing: set<HashKey>)
    returns (out: seq<EdgeSpec>)
    ensures out == ScanTargets(src, it, nodes, existing)
  {
    out := [];
    var j := 0;
    while j < |nodes|
      invariant 0 <= j <= |nodes|
      invariant out == ScanTargets(src, it, nodes[..j], existing)
    {
      var tgt := nodes[j];
      if src.0 != tgt.0 && Matches(it, src.1, tgt.1) {
        var p := Proposal(src, it, tgt);
        if !Known(existing, SpecKey(p)) {
          out := out + [p];
        }
      }
      assert nodes[..j + 1][..j] == nodes[..j];
      j := j + 1;
    }
    assert nodes[..|nodes|] == nodes;
  }

  /** The middle loop: one source, every item it yields. */
  method ScanItemsLoop(src: (string, UnitNode), items: seq<Item>, nodes: NodeList, existing: set<HashKey>)
    returns (out: seq<EdgeSpec>)
    ensures out == ScanItems(src, items, nodes, existing)
  {
    out := [];
    var k := 0;
    while k < |items|
      invariant 0 <= k <= |items|
      invariant out == ScanItems(src, items[..k], nodes, existing)
    {
      var part := ScanTargetsLoop(src, items[k], nodes, existing);
      out := out + part;
      assert items[..k + 1][..k] == items[..k];
      k := k + 1;
    }
    assert items[..|items|] == items;
  }

  /** The three nested loops of one rule pass. */
  method ScanPass(pass: seq<Rule>, nodes: NodeList, existing: set<HashKey>) returns (out: seq<EdgeSpec>)
    ensures out == ScanSources(pass, nodes, nodes, existing)
  {
    out := [];
    var i := 0;
    while i < |nodes|
      invariant 0 <= i <= |nodes|
      invariant out == ScanSources(pass, nodes[..i], nodes, existing)
    {
      var part := ScanItemsLoop(nodes[i], PassItems(pass, nodes[i].1), nodes, existing);
      out := out + part;
      assert nodes[..i + 1][..i] == nodes[..i];
      i := i + 1;
    }
    assert nodes[..|nodes|] == nodes;
  }

  // ---------------------------------------------------------------- groups

  /** A `{key: [node_id, ...]}` dictionary, as its items in insertion order. */
  datatype Group = Group(key: string, ids: seq<string>)

  /** `groups.setdefault(key, []).append(id)`. */
  function AddToGroup(groups: seq<Group>, key: string, id: string): (r: seq<Group>)
    ensures |r| >= |groups|
  {
    if groups == [] then [Group(key, [id])]
    else if groups[0].key == key then [Group(key, groups[0].ids + [id])] + groups[1..]
    else [groups[0]] + AddToGroup(groups[1..], key, id)
  }

  /** As `AddToGroup`, but an id already in the group is not added again. */
  function AddToGroupOnce(groups: seq<Group>, key: string, id: string): (r: seq<Group>)
  {
    if groups == [] then [Group(key, [id])]
    else if groups[0].key == key then
      [Group(key, if id in groups[0].ids then groups[0].ids else groups[0].ids + [id])] + groups[1..]
    else [groups[0]] + AddToGroupOnce(groups[1..], key, id)
  }

  /** The facility a node's class name or description mentions first. */
  function FacilityOf(n: UnitNode): Option<string>
  {
    if Contains(n.className, "Gateway") || Contains(n.description, "Gateway") then Some("Gateway")
    else if Contains(n.className, "Stargate") || Contains(n.description, "Stargate") then Some("Stargate")
    else if Contains(n.className, "Robotics") || Contains(n.description, "Robotics") then Some("Robotics Facility")
    else None
  }

  /** `facility_groups`. */
  function FacilityGroups(nodes: NodeList): seq<Group>
  {
    if nodes == [] then []
    else
      var last := nodes[|nodes| - 1];
      var g := FacilityGroups(nodes[..|nodes| - 1]);
      var f := FacilityOf(last.1);
      if f.Some? then AddToGroup(g, f.value, last.0) else g
  }

  function AddRoles(groups: seq<Group>, roles: seq<string>, id: string): seq<Group>
    decreases roles
  {
    if roles == [] then groups else AddRoles(AddToGroup(groups, roles[0], id), roles[1..], id)
  }

  /** `role_groups` as the code builds it: a node is appended once per listed role. */
  function RoleGroupsAsWritten(nodes: NodeList): seq<Group>
  {
    if nodes == [] then []
    else
      var last := nodes[|nodes| - 1];
      var g := RoleGroupsAsWritten(nodes[..|nodes| - 1]);
      if last.1.hasLlmInterface then AddRoles(g, last.1.primaryRoles, last.0) else g
  }

  function AddRolesOnce(groups: seq<Group>, roles: seq<string>, id: string): seq<Group>
    decreases roles
  {
    if roles == [] then groups else AddRolesOnce(AddToGroupOnce(groups, roles[0], id), roles[1..], id)
  }

  /** `role_groups` with each node at most once per role. */
  function RoleGroups(nodes: NodeList): seq<Group>
  {
    if nodes == [] then []
    else
      var last := nodes[|nodes| - 1];
      var g := RoleGroups(nodes[..|nodes| - 1]);
      if last.1.hasLlmInterface then AddRolesOnce(g, last.1.primaryRoles, last.0) else g
  }

  /** How many leading members of a group are paired. */
  function Bound(limit: Option<nat>, n: nat): (b: nat)
    ensures b <= n
    ensures limit.Some? ==> b <= limit.value
  {
    if limit.Some? && limit.value < n then limit.value else n
  }

  function EmitPair(a: string, b: string, lt: LinkageType, conf: real, existing: set<HashKey>): seq<EdgeSpec>
  {
    var s := EdgeSpec(a, b, lt, None, conf);
    if !Known(existing, SpecKey(s)) then [s] else []
  }

  /** Pairs `(ids[i], ids[j])` for `i < j < jEnd`, `i` fixed. */
  function RowPairs(ids: seq<string>, i: nat, jEnd: nat, lt: LinkageType, conf: real, existing: set<HashKey>): seq<EdgeSpec>
    requires jEnd <= |ids|
    decreases jEnd
  {
    if jEnd <= i + 1 then []
    else RowPairs(ids, i, jEnd - 1, lt, conf, existing) + EmitPair(ids[i], ids[jEnd - 1], lt, conf, existing)
  }

  /** Pairs `(ids[i], ids[j])` for `i < iEnd` and `i < j < n`. */
  function AllPairs(ids: seq<string>, iEnd: nat, n: nat, lt: LinkageType, conf: real, existing: set<HashKey>): seq<EdgeSpec>
    requires iEnd <= n <= |ids|
  {
    if iEnd == 0 then []
    else AllPairs(ids, iEnd - 1, n, lt, conf, existing) + RowPairs(ids, iEnd - 1, n, lt, conf, existing)
  }

  /** The pairing loops over every group. */
  function GroupPairs(groups: seq<Group>, lt: LinkageType, conf: real, limit: Option<nat>, existing: set<HashKey>): seq<EdgeSpec>
  {
    if groups == [] then []
    else
      var g := groups[|groups| - 1];
      var b := Bound(limit, |g.ids|);
      GroupPairs(groups[..|groups| - 1], lt, conf, limit, existing) + AllPairs(g.ids, b, b, lt, conf, existing)
  }

  /** The pair `s` joins members `i < j` of one group, both among the first `Bound` members. */
  ghost predicate PairOf(s: EdgeSpec, g: Group, limit: Option<nat>)
  {
    exists i, j :: 0 <= i < j < Bound(limit, |g.ids|) && s.src == g.ids[i] && s.tgt == g.ids[j]
  }

  ghost predicate PairFacts(s: EdgeSpec, groups: seq<Group>, lt: LinkageType, conf: real,
                            limit: Option<nat>, existing: set<HashKey>)
  {
    s.linkageType == lt && s.confidence == conf && s.sourceMethod.None?
    && !Known(existing, SpecKey(s))
    && exists g :: g in groups && PairOf(s, g, limit)
  }

  /** What one emitted pair of group `g` satisfies. */
  ghost predicate GroupPairFacts(s: EdgeSpec, g: Group, lt: LinkageType, conf: real,
                                 limit: Option<nat>, existing: set<HashKey>)
  {
    s.linkageType == lt && s.confidence == conf && s.sourceMethod.None?
    && !Known(existing, SpecKey(s)) && PairOf(s, g, limit)
  }

  lemma {:induction false} RowPairsFacts(g: Group, i: nat, jEnd: nat, lt: LinkageType, conf: real,
                                         limit: Option<nat>, existing: set<HashKey>)
    requires jEnd <= Bound(limit, |g.ids|)
    ensures forall s :: s in RowPairs(g.ids, i, jEnd, lt, conf, existing) ==>
              GroupPairFacts(s, g, lt, conf, limit, existing)
    decreases jEnd
  {
    if jEnd > i + 1 {
      RowPairsFacts(g, i, jEnd - 1, lt, conf, limit, existing);
      forall s | s in EmitPair(g.ids[i], g.ids[jEnd - 1], lt, conf, existing)
        ensures PairOf(s, g, limit)
      {
        assert s.src == g.ids[i] && s.tgt == g.ids[jEnd - 1];
      }
    }
  }

  lemma {:induction false} AllPairsFacts(g: Group, iEnd: nat, lt: LinkageType, conf: real,
                                         limit: Option<nat>, existing: set<HashKey>)
    requires iEnd <= Bound(limit, |g.ids|)
    ensures var b := Bound(limit, |g.ids|);
            forall s :: s in AllPairs(g.ids, iEnd, b, lt, conf, existing) ==>
              GroupPairFacts(s, g, lt, conf, limit, existing)
  {
    if iEnd > 0 {
      AllPairsFacts(g, iEnd - 1, lt, conf, limit, existing);
      RowPairsFacts(g, iEnd - 1, Bound(limit, |g.ids|), lt, conf, limit, existing);
    }
  }

  /**
   * Every paired edge joins members `i < j` of one group, within the first
   * `limit` members when there is a limit, and is not equal to an existing edge.
   */
  lemma {:induction false} GroupPairsFacts(groups: seq<Group>, lt: LinkageType, conf: real,
                                           limit: Option<nat>, existing: set<HashKey>)
    ensures forall s :: s in GroupPairs(groups, lt, conf, limit, existing) ==>
              PairFacts(s, groups, lt, conf, limit, existing)
  {
    if groups != [] {
      var init := groups[..|groups| - 1];
      var g := groups[|groups| - 1];
      GroupPairsFacts(init, lt, conf, limit, existing);
      AllPairsFacts(g, Bound(limit, |g.ids|), lt, conf, limit, existing);
      forall s | s in GroupPairs(groups, lt, conf, limit, existing)
        ensures PairFacts(s, groups, lt, conf, limit, existing)
      {
        if s in GroupPairs(init, lt, conf, limit, existing) {
          var h :| h in init && PairOf(s, h, limit);
          assert h in groups;
        } else {
          assert GroupPairFacts(s, g, lt, conf, limit, existing);
          assert g in groups;
        }
      }
    }
  }

  /** A pair drawn from a group without repeated ids is never a self-loop. */
  lemma PairOfDistinct(s: EdgeSpec, g: Group, limit: Option<nat>)
    requires PairOf(s, g, limit) && NoDuplicates(g.ids)
    ensures s.src != s.tgt
  {
  }

  /** Pairs drawn from groups without repeated ids are never self-loops. */
  lemma GroupPairsDistinct(groups: seq<Group>, lt: LinkageType, conf: real,
                           limit: Option<nat>, existing: set<HashKey>)
    requires forall g :: g in groups ==> NoDuplicates(g.ids)
    ensures forall s :: s in GroupPairs(groups, lt, conf, limit, existing) ==>
              s.linkageType == lt && s.src != s.tgt && !Known(existing, SpecKey(s))
  {
    GroupPairsFacts(groups, lt, conf, limit, existing);
    forall s | s in GroupPairs(groups, lt, conf, limit, existing)
      ensures s.src != s.tgt
    {
      var g :| g in groups && PairOf(s, g, limit);
      PairOfDistinct(s, g, limit);
    }
  }

  /** The inner pairing loop: `ids[i]` with each later member below `b`. */
  method RowLoop(ids: seq<string>, i: nat, b: nat, lt: LinkageType, conf: real, existing: set<HashKey>)
    returns (out: seq<EdgeSpec>)
    requires b <= |ids|
    ensures out == RowPairs(ids, i, b, lt, conf, existing)
  {
    out := [];
    if b <= i + 1 {
      return;
    }
    var j := i + 1;
    while j < b
      invariant i + 1 <= j <= b
      invariant out == RowPairs(ids, i, j, lt, conf, existing)
    {
      var s := EdgeSpec(ids[i], ids[j], lt, None, conf);
      if !Known(existing, SpecKey(s)) {
        out := out + [s];
      }
      j := j + 1;
    }
  }

  /** The outer pairing loop over the first `b` members of one group. */
  method AllPairsLoop(ids: seq<string>, b: nat, lt: LinkageType, conf: real, existing: set<HashKey>)
    returns (pairs: seq<EdgeSpec>)
    requires b <= |ids|
    ensures pairs == AllPairs(ids, b, b, lt, conf, existing)
  {
    pairs := [];
    var i := 0;
    while i < b
      invariant 0 <= i <= b
      invariant pairs == AllPairs(ids, i, b, lt, conf, existing)
    {
      var row := RowLoop(ids, i, b, lt, conf, existing);
      pairs := pairs + row;
      i := i + 1;
    }
  }

  /** The pairing loops of one association rule. */
  method PairGroups(groups: seq<Group>, lt: LinkageType, conf: real, limit: Option<nat>, existing: set<HashKey>)
    returns (out: seq<EdgeSpec>)
    ensures out == GroupPairs(groups, lt, conf, limit, existing)
  {
    out := [];
    var gi := 0;
    while gi < |groups|
      invariant 0 <= gi <= |groups|
      invariant out == GroupPairs(groups[..gi], lt, conf, limit, existing)
    {
      var ids := groups[gi].ids;
      var b := Bound(limit, |ids|);
      var pairs := AllPairsLoop(ids, b, lt, conf, existing);
      out := out + pairs;
      assert groups[..gi + 1][..gi] == groups[..gi];
      gi := gi + 1;
    }
    assert groups[..|groups|] == groups;
  }

  // ------------------------------------------------------- facility groups

  /** Every facility group holds distinct ids of the scanned nodes. */
  lemma {:induction false} FacilityGroupsDistinct(nodes: NodeList)
    requires NoDuplicates(Ids(nodes))
    ensures forall g :: g in FacilityGroups(nodes) ==> NoDuplicates(g.ids) && forall x :: x in g.ids ==> x in Ids(nodes)
  {
    if nodes != [] {
      var init := nodes[..|nodes| - 1];
      var last := nodes[|nodes| - 1];
      assert Ids(nodes) == Ids(init) + [last.0];
      assert NoDuplicates(Ids(init)) by {
        forall i, j | 0 <= i < j < |Ids(init)| ensures Ids(init)[i] != Ids(init)[j] {
          assert Ids(init)[i] == Ids(nodes)[i] && Ids(init)[j] == Ids(nodes)[j];
        }
      }
      FacilityGroupsDistinct(init);
      assert last.0 !in Ids(init);
      var f := FacilityOf(last.1);
      if f.Some? {
        AddToGroupDistinct(FacilityGroups(init), f.value, last.0, Ids(init));
      }
    }
  }

  /** Appending an id that is in no group keeps every group free of duplicates. */
  lemma {:induction false} AddToGroupDistinct(groups: seq<Group>, key: string, id: string, ids: seq<string>)
    requires forall g :: g in groups ==> NoDuplicates(g.ids) && forall x :: x in g.ids ==> x in ids
    requires id !in ids
    ensures forall g :: g in AddToGroup(groups, key, id) ==>
              NoDuplicates(g.ids) && forall x :: x in g.ids ==> x in ids + [id]
  {
    if groups != [] {
      if groups[0].key == key {
        var old0 := groups[0].ids;
        assert groups[0] in groups;
        assert NoDuplicates(old0 + [id]) by {
          forall i, j | 0 <= i < j < |old0 + [id]| ensures (old0 + [id])[i] != (old0 + [id])[j] {
            if j == |old0| {
              assert (old0 + [id])[i] == old0[i];
            }
          }
        }
        forall g | g in groups[1..] ensures g in groups {}
      } else {
        assert groups[0] in groups;
        forall g | g in groups[1..] ensures g in groups {}
        AddToGroupDistinct(groups[1..], key, id, ids);
      }
    }
  }

  /** Adding with the membership test keeps every group free of duplicates. */
  lemma {:induction false} AddToGroupOnceDistinct(groups: seq<Group>, key: string, id: string)
    requires forall g :: g in groups ==> NoDuplicates(g.ids)
    ensures forall g :: g in AddToGroupOnce(groups, key, id) ==> NoDuplicates(g.ids)
  {
    if groups != [] {
      assert groups[0] in groups;
      forall g | g in groups[1..] ensures g in groups {}
      if groups[0].key == key {
        var old0 := groups[0].ids;
        if id !in old0 {
          assert NoDuplicates(old0 + [id]) by {
            forall i, j | 0 <= i < j < |old0 + [id]| ensures (old0 + [id])[i] != (old0 + [id])[j] {
              if j == |old0| {
                assert (old0 + [id])[i] == old0[i];
              }
            }
          }
        }
      } else {
        AddToGroupOnceDistinct(groups[1..], key, id);
      }
    }
  }

  lemma {:induction false} AddRolesOnceDistinct(groups: seq<Group>, roles: seq<string>, id: string)
    requires forall g :: g in groups ==> NoDuplicates(g.ids)
    ensures forall g :: g in AddRolesOnce(groups, roles, id) ==> NoDuplicates(g.ids)
    decreases roles
  {
    if roles != [] {
      AddToGroupOnceDistinct(groups, roles[0], id);
      AddRolesOnceDistinct(AddToGroupOnce(groups, roles[0], id), roles[1..], id);
    }
  }

  /** Every (corrected) role group holds distinct ids. */
  lemma {:induction false} RoleGroupsDistinct(nodes: NodeList)
    ensures forall g :: g in RoleGroups(nodes) ==> NoDuplicates(g.ids)
  {
    if nodes != [] {
      var last := nodes[|nodes| - 1];
      RoleGroupsDistinct(nodes[..|nodes| - 1]);
      if last.1.hasLlmInterface {
        AddRolesOnceDistinct(RoleGroups(nodes[..|nodes| - 1]), last.1.primaryRoles, last.0);
      }
    }
  }

  /**
   * As written, a node that lists one role twice is paired with itself: the
   * role association rule emits a self-loop.
   */
  lemma RoleGroupsAsWrittenSelfLoop()
    ensures var n := UnitNode("Zealot", "", [], [], [], true, [], [Frontline, Frontline], [], [], [], [], [], []);
            var groups := RoleGroupsAsWritten([("zealot", n)]);
            var s := GroupPairs(groups, Association, 0.75, Some(5), {});
            s == [EdgeSpec("zealot", "zealot", Association, None, 0.75)]
  {
    var n := UnitNode("Zealot", "", [], [], [], true, [], [Frontline, Frontline], [], [], [], [], [], []);
    var nodes: NodeList := [("zealot", n)];
    assert nodes[..0] == [];
    assert AddToGroup([], Frontline, "zealot") == [Group(Frontline, ["zealot"])];
    var g1 := [Group(Frontline, ["zealot"])];
    assert g1[0].key == Frontline && g1[1..] == [];
    assert g1[0].ids + ["zealot"] == ["zealot", "zealot"];
    assert AddToGroup(g1, Frontline, "zealot") == [Group(Frontline, ["zealot", "zealot"])];
    var g2 := [Group(Frontline, ["zealot", "zealot"])];
    assert AddRoles(g2, [], "zealot") == g2;
    assert [Frontline][1..] == [];
    assert AddRoles(g1, [Frontline], "zealot") == g2;
    assert [Frontline, Frontline][1..] == [Frontline];
    assert AddRoles([], [Frontline, Frontline], "zealot") == g2;
    assert RoleGroupsAsWritten(nodes) == [Group(Frontline, ["zealot", "zealot"])];
    var ids := ["zealot", "zealot"];
    assert !Known({}, SpecKey(EdgeSpec("zealot", "zealot", Association, None, 0.75)));
    assert RowPairs(ids, 0, 2, Association, 0.75, {}) == [EdgeSpec("zealot", "zealot", Association, None, 0.75)];
    assert AllPairs(ids, 2, 2, Association, 0.75, {}) == [EdgeSpec("zealot", "zealot", Association, None, 0.75)];
    var groups := [Group(Frontline, ids)];
    assert groups[..0] == [];
  }

  /** No node with the LLM interface lists one role twice. */
  predicate RolesListedOnce(nodes: NodeList)
  {
    forall i :: 0 <= i < |nodes| && nodes[i].1.hasLlmInterface ==> NoDuplicates(nodes[i].1.primaryRoles)
  }

  /** Every id held by a group is one of `ids`. */
  ghost predicate Within(groups: seq<Group>, ids: seq<string>)
  {
    forall g :: g in groups ==> forall x :: x in g.ids ==> x in ids
  }

  /** Appending changes only the group under `key`. */
  lemma {:induction false} AddToGroupKeys(groups: seq<Group>, key: string, id: string)
    ensures forall g :: g in AddToGroup(groups, key, id) ==> g in groups || g.key == key
  {
    if groups != [] && groups[0].key != key {
      AddToGroupKeys(groups[1..], key, id);
      forall g | g in groups[1..] ensures g in groups {}
    }
  }

  lemma {:induction false} AddToGroupWithin(groups: seq<Group>, key: string, id: string, ids: seq<string>)
    requires Within(groups, ids) && id in ids
    ensures Within(AddToGroup(groups, key, id), ids)
  {
    if groups != [] {
      assert groups[0] in groups;
      forall g | g in groups[1..] ensures g in groups {}
      if groups[0].key != key {
        AddToGroupWithin(groups[1..], key, id, ids);
      }
    }
  }

  lemma {:induction false} AddRolesWithin(groups: seq<Group>, roles: seq<string>, id: string, ids: seq<string>)
    requires Within(groups, ids) && id in ids
    ensures Within(AddRoles(groups, roles, id), ids)
    decreases roles
  {
    if roles != [] {
      AddToGroupWithin(groups, roles[0], id, ids);
      AddRolesWithin(AddToGroup(groups, roles[0], id), roles[1..], id, ids);
    }
  }

  /** The role groups hold only ids of the scanned nodes. */
  lemma {:induction false} RoleGroupsWithin(nodes: NodeList)
    ensures Within(RoleGroupsAsWritten(nodes), Ids(nodes))
  {
    if nodes != [] {
      var init := nodes[..|nodes| - 1];
      var last := nodes[|nodes| - 1];
      assert Ids(nodes) == Ids(init) + [last.0];
      RoleGroupsWithin(init);
      var g := RoleGroupsAsWritten(init);
      assert Within(g, Ids(nodes));
      if last.1.hasLlmInterface {
        AddRolesWithin(g, last.1.primaryRoles, last.0, Ids(nodes));
      }
    }
  }

  /** When the group under `key` does not hold `id`, the membership test changes nothing. */
  lemma {:induction false} AddToGroupSame(groups: seq<Group>, key: string, id: string)
    requires forall g :: g in groups && g.key == key ==> id !in g.ids
    ensures AddToGroup(groups, key, id) == AddToGroupOnce(groups, key, id)
  {
    if groups != [] {
      assert groups[0] in groups;
      if groups[0].key != key {
        forall g | g in groups[1..] ensures g in groups {}
        AddToGroupSame(groups[1..], key, id);
      }
    }
  }

  lemma {:induction false} AddRolesSame(groups: seq<Group>, roles: seq<string>, id: string)
    requires NoDuplicates(roles)
    requires forall g :: g in groups && g.key in roles ==> id !in g.ids
    ensures AddRoles(groups, roles, id) == AddRolesOnce(groups, roles, id)
    decreases roles
  {
    if roles != [] {
      var rest := roles[1..];
      AddToGroupSame(groups, roles[0], id);
      var next := AddToGroup(groups, roles[0], id);
      AddToGroupKeys(groups, roles[0], id);
      assert NoDuplicates(rest) by {
        forall i, j | 0 <= i < j < |rest| ensures rest[i] != rest[j] {
          assert rest[i] == roles[i + 1] && rest[j] == roles[j + 1];
        }
      }
      assert roles[0] !in rest by {
        forall k | 0 <= k < |rest| ensures rest[k] != roles[0] {
          assert rest[k] == roles[k + 1];
        }
      }
      forall g | g in next && g.key in rest ensures id !in g.ids {
        assert g in groups;
      }
      AddRolesSame(next, rest, id);
    }
  }

  /**
   * When node ids are unique and no node lists a role twice, the role
   * groups as the code builds them are the corrected ones.
   */
  lemma {:induction false} RoleGroupsAgree(nodes: NodeList)
    requires NoDuplicates(Ids(nodes)) && RolesListedOnce(nodes)
    ensures RoleGroupsAsWritten(nodes) == RoleGroups(nodes)
  {
    if nodes != [] {
      var init := nodes[..|nodes| - 1];
      var last := nodes[|nodes| - 1];
      assert Ids(nodes) == Ids(init) + [last.0];
      assert NoDuplicates(Ids(init)) by {
        forall i, j | 0 <= i < j < |Ids(init)| ensures Ids(init)[i] != Ids(init)[j] {
          assert Ids(init)[i] == Ids(nodes)[i] && Ids(init)[j] == Ids(nodes)[j];
        }
      }
      assert RolesListedOnce(init) by {
        forall i | 0 <= i < |init| && init[i].1.hasLlmInterface
          ensures NoDuplicates(init[i].1.primaryRoles)
        {
          assert init[i] == nodes[i];
        }
      }
      RoleGroupsAgree(init);
      RoleGroupsWithin(init);
      assert last.0 !in Ids(init);
      if last.1.hasLlmInterface {
        assert NoDuplicates(last.1.primaryRoles) by {
          assert nodes[|nodes| - 1] == last;
        }
        AddRolesSame(RoleGroups(init), last.1.primaryRoles, last.0);
      }
    }
  }

  // ---------------------------------------------------------------- phases

  const InteractionPass: seq<Rule> := [StrongAgainst, WeakAgainst, ContextSynergy(Interaction), CommonTactic]

  /** The edges the identification rules of a phase propose, in order. */
  function PhaseSpecs(phase: Phase, nodes: NodeList, existing: set<HashKey>): seq<EdgeSpec>
  {
    match phase
    case Phase1Interaction => ScanSources(InteractionPass, nodes, nodes, existing)
    case Phase2Combination =>
      ScanSources([ContextSynergy(Combination)], nodes, nodes, existing)
      + ScanSources([FlowStep], nodes, nodes, existing)
      + ScanSources([RoleComplement], nodes, nodes, existing)
      + ScanSources([SharedKeywords], nodes, nodes, existing)
    case Phase3Association =>
      ScanSources([ContextSynergy(Association)], nodes, nodes, existing)
      + GroupPairs(FacilityGroups(nodes), Association, 0.85, None, existing)
      + GroupPairs(RoleGroupsAsWritten(nodes), Association, 0.75, Some(5), existing)
    case Phase4Dependency =>
      ScanSources([InfoSynergy], nodes, nodes, existing)
      + ScanSources([BuildFacility], nodes, nodes, existing)
      + ScanSources([UpgradeSource], nodes, nodes, existing)
      + ScanSources([AbilitySupport], nodes, nodes, existing)
    case Phase5Invocation =>
      ScanSources([ParamType], nodes, nodes, existing)
      + ScanSources([ReturnType], nodes, nodes, existing)
      + ScanSources([PrefabReference], nodes, nodes, existing)
  }

  /** The scanned part of a phase: facts in terms of the phase's type. */
  lemma ScanPhaseFacts(pass: seq<Rule>, lt: LinkageType, nodes: NodeList, existing: set<HashKey>)
    requires forall r :: r in pass ==> r.Type() == lt
    ensures forall s :: s in ScanSources(pass, nodes, nodes, existing) ==>
              s.src != s.tgt && !Known(existing, SpecKey(s)) && s.linkageType == lt
              && s.src in Ids(nodes) && s.tgt in Ids(nodes)
  {
    ScanSourcesFacts(pass, nodes, nodes, existing);
  }

  /**
   * Every edge a phase proposes has the phase's linkage type and is not equal
   * to an existing edge. It joins two different nodes, except that phase 3
   * pairs a node with itself when that node lists one role twice.
   */
  lemma PhaseSpecsFacts(phase: Phase, nodes: NodeList, existing: set<HashKey>)
    requires NoDuplicates(Ids(nodes))
    ensures forall s :: s in PhaseSpecs(phase, nodes, existing) ==>
              s.linkageType == PhaseType(phase) && !Known(existing, SpecKey(s))
    ensures phase != Phase3Association || RolesListedOnce(nodes) ==>
              forall s :: s in PhaseSpecs(phase, nodes, existing) ==> s.src != s.tgt
  {
    var lt := PhaseType(phase);
    match phase
    case Phase1Interaction =>
      ScanPhaseFacts(InteractionPass, lt, nodes, existing);
    case Phase2Combination =>
      ScanPhaseFacts([ContextSynergy(Combination)], lt, nodes, existing);
      ScanPhaseFacts([FlowStep], lt, nodes, existing);
      ScanPhaseFacts([RoleComplement], lt, nodes, existing);
      ScanPhaseFacts([SharedKeywords], lt, nodes, existing);
    case Phase3Association =>
      ScanPhaseFacts([ContextSynergy(Association)], lt, nodes, existing);
      FacilityGroupsDistinct(nodes);
      GroupPairsDistinct(FacilityGroups(nodes), Association, 0.85, None, existing);
      GroupPairsFacts(RoleGroupsAsWritten(nodes), Association, 0.75, Some(5), existing);
      if RolesListedOnce(nodes) {
        RoleGroupsAgree(nodes);
        RoleGroupsDistinct(nodes);
        GroupPairsDistinct(RoleGroups(nodes), Association, 0.75, Some(5), existing);
      }
    case Phase4Dependency =>
      ScanPhaseFacts([InfoSynergy], lt, nodes, existing);
      ScanPhaseFacts([BuildFacility], lt, nodes, existing);
      ScanPhaseFacts([UpgradeSource], lt, nodes, existing);
      ScanPhaseFacts([AbilitySupport], lt, nodes, existing);
    case Phase5Invocation =>
      ScanPhaseFacts([ParamType], lt, nodes, existing);
      ScanPhaseFacts([ReturnType], lt, nodes, existing);
      ScanPhaseFacts([PrefabReference], lt, nodes, existing);
  }

  /** With the corrected role groups, the role association rule never pairs a node with itself. */
  lemma RolePairsIntendedDistinct(nodes: NodeList, existing: set<HashKey>)
    ensures forall s :: s in GroupPairs(RoleGroups(nodes), Association, 0.75, Some(5), existing) ==> s.src != s.tgt
  {
    RoleGroupsDistinct(nodes);
    GroupPairsDistinct(RoleGroups(nodes), Association, 0.75, Some(5), existing);
  }

  /** Facility association edges pair members `i < j` of one facility group. */
  lemma FacilityPairsWithinGroup(nodes: NodeList, existing: set<HashKey>)
    ensures forall s :: s in GroupPairs(FacilityGroups(nodes), Association, 0.85, None, existing) ==>
              exists g :: g in FacilityGroups(nodes) && PairOf(s, g, None)
  {
    GroupPairsFacts(FacilityGroups(nodes), Association, 0.85, None, existing);
  }

  /** Role association edges pair members among the first five of one role group. */
  lemma RolePairsWithinFirstFive(nodes: NodeList, existing: set<HashKey>)
    ensures forall s :: s in GroupPairs(RoleGroupsAsWritten(nodes), Association, 0.75, Some(5), existing) ==>
              exists g :: g in RoleGroupsAsWritten(nodes) && PairOf(s, g, Some(5))
  {
    GroupPairsFacts(RoleGroupsAsWritten(nodes), Association, 0.75, Some(5), existing);
  }

  /** The identification methods of a phase, run in order. */
  method IdentifyLinks(phase: Phase, nodes: NodeList, existing: set<HashKey>) returns (specs: seq<EdgeSpec>)
    ensures specs == PhaseSpecs(phase, nodes, existing)
  {
    match phase
    case Phase1Interaction =>
      specs := ScanPass(InteractionPass, nodes, existing);
    case Phase2Combination =>
      var a := ScanPass([ContextSynergy(Combination)], nodes, existing);
      var b := ScanPass([FlowStep], nodes, existing);
      var c := ScanPass([RoleComplement], nodes, existing);
      var d := ScanPass([SharedKeywords], nodes, existing);
      specs := a + b + c + d;
    case Phase3Association =>
      var a := ScanPass([ContextSynergy(Association)], nodes, existing);
      var b := PairGroups(FacilityGroups(nodes), Association, 0.85, None, existing);
      var c := PairGroups(RoleGroupsAsWritten(nodes), Association, 0.75, Some(5), existing);
      specs := a + b + c;
    case Phase4Dependency =>
      var a := ScanPass([InfoSynergy], nodes, existing);
      var b := ScanPass([BuildFacility], nodes, existing);
      var c := ScanPass([UpgradeSource], nodes, existing);
      var d := ScanPass([AbilitySupport], nodes, existing);
      specs := a + b + c + d;
    case Phase5Invocation =>
      var a := ScanPass([ParamType], nodes, existing);
      var b := ScanPass([ReturnType], nodes, existing);
      var c := ScanPass([PrefabReference], nodes, existing);
      specs := a + b + c;
  }

  /** The edge object built for a spec, before the phase tags it: its id computed, its fields from the spec. */
  ghost predicate Built(e: GraphEdge, s: EdgeSpec)
    reads e
  {
    e.Valid() && FromSpec(e, s)
  }

  /** The edge's endpoints, type, direction, method and confidence are the spec's. */
  ghost predicate FromSpec(e: GraphEdge, s: EdgeSpec)
    reads e
  {
    e.Key() == SpecKey(s) && e.sourceMethod == s.sourceMethod && e.metadata.confidence == s.confidence
  }

  /** Builds one fresh edge per spec, with the spec's confidence. */
  method BuildEdges(specs: seq<EdgeSpec>) returns (edges: seq<GraphEdge>)
    ensures |edges| == |specs|
    ensures forall i :: 0 <= i < |edges| ==> fresh(edges[i]) && Built(edges[i], specs[i])
    ensures forall i, j :: 0 <= i < j < |edges| ==> edges[i] != edges[j]
  {
    edges := [];
    var k := 0;
    while k < |specs|
      invariant 0 <= k <= |specs| && |edges| == k
      invariant forall i :: 0 <= i < k ==> fresh(edges[i]) && Built(edges[i], specs[i])
      invariant forall i, j :: 0 <= i < j < k ==> edges[i] != edges[j]
    {
      var s := specs[k];
      var e := new GraphEdge(s.src, s.tgt, s.linkageType, None, "", s.sourceMethod, None, None,
                             NoPatch().(confidence := Some(s.confidence)));
      edges := edges + [e];
      k := k + 1;
    }
  }

  /** The tagging loop of `execute_phase`: `discovered_in_round` becomes the phase value. */
  method TagRound(edges: seq<GraphEdge>, round: int)
    modifies set e | e in edges
    requires forall i, j :: 0 <= i < j < |edges| ==> edges[i] != edges[j]
    ensures forall i :: 0 <= i < |edges| ==>
              edges[i].metadata == old(edges[i].metadata).(discoveredInRound := round)
  {
    var k := 0;
    while k < |edges|
      invariant 0 <= k <= |edges|
      invariant forall i :: 0 <= i < k ==> edges[i].metadata == old(edges[i].metadata).(discoveredInRound := round)
      invariant forall i :: k <= i < |edges| ==> edges[i].metadata == old(edges[i].metadata)
    {
      edges[k].metadata := edges[k].metadata.(discoveredInRound := round);
      k := k + 1;
    }
  }

  /**
   * `execute_phase`: the phase's new edges, each a fresh object built from
   * its spec and tagged with `discovered_in_round` equal to the phase value.
   */
  method ExecutePhase(phase: Phase, nodes: NodeList, existing: set<HashKey>) returns (edges: seq<GraphEdge>)
    ensures var specs := PhaseSpecs(phase, nodes, existing);
            |edges| == |specs|
            && (forall i :: 0 <= i < |edges| ==>
                  (fresh(edges[i]) && Built(edges[i], specs[i])
                   && edges[i].metadata.discoveredInRound == phase.Value()))
            && (forall i, j :: 0 <= i < j < |edges| ==> edges[i] != edges[j])
  {
    var specs := IdentifyLinks(phase, nodes, existing);
    edges := BuildEdges(specs);
    TagRound(edges, phase.Value());
  }
}
