/**
 * Edges of the program linkage graph (core/linkage_graph/edge.py).
 *
 * An edge joins two node ids with one of five linkage types.  Interaction,
 * combination and association edges are undirected unless a direction is
 * given; their id is built from the two endpoints in sorted order, so it does
 * not depend on which endpoint is called the source.  Equality and hashing
 * follow the same rule.  Only the metadata of an edge changes after
 * construction.
 */
module LinkageEdge {
  import opened Common

  datatype LinkageType = Interaction | Combination | Association | Invocation | Dependency
  {
    /** The enum's string value; parsing it back gives the same member. */
    function Value(): (s: string)
      ensures ParseLinkageType(s) == Ok(this)
    {
      match this
      case Interaction => "interaction"
      case Combination => "combination"
      case Association => "association"
      case Invocation => "invocation"
      case Dependency => "dependency"
    }
  }

  /** `LinkageType(value)`: raises ValueError for any other string. */
  function ParseLinkageType(s: string): Result<LinkageType>
  {
    if s == "interaction" then Ok(Interaction)
    else if s == "combination" then Ok(Combination)
    else if s == "association" then Ok(Association)
    else if s == "invocation" then Ok(Invocation)
    else if s == "dependency" then Ok(Dependency)
    else Err("ValueError: linkage_type")
  }

  datatype Direction = Directed | Undirected
  {
    function Value(): (s: string)
      ensures ParseDirection(s) == Ok(this)
    {
      match this
      case Directed => "directed"
      case Undirected => "undirected"
    }
  }

  /** `EdgeDirection(value)`. */
  function ParseDirection(s: string): Result<Direction>
  {
    if s == "directed" then Ok(Directed)
    else if s == "undirected" then Ok(Undirected)
    else Err("ValueError: direction")
  }

  /** The direction an edge gets when none is passed to the constructor. */
  function DefaultDirection(lt: LinkageType): (d: Direction)
    ensures d == Undirected <==> lt.Interaction? || lt.Combination? || lt.Association?
    ensures d == Directed <==> lt.Invocation? || lt.Dependency?
  {
    if lt == Interaction || lt == Combination || lt == Association then Undirected else Directed
  }

  // ------------------------------------------------------- string ordering

  /** Python's `<` on strings: lexicographic on code points. */
  predicate StrLess(a: string, b: string)
  {
    if a == [] then b != []
    else if b == [] then false
    else if a[0] != b[0] then a[0] < b[0]
    else StrLess(a[1..], b[1..])
  }

  lemma {:induction false} StrLessAsymmetric(a: string, b: string)
    ensures !(StrLess(a, b) && StrLess(b, a))
  {
    if a != [] && b != [] && a[0] == b[0] {
      StrLessAsymmetric(a[1..], b[1..]);
    }
  }

  lemma {:induction false} StrLessTotal(a: string, b: string)
    requires a != b
    ensures StrLess(a, b) || StrLess(b, a)
  {
    if a != [] && b != [] && a[0] == b[0] {
      assert a == [a[0]] + a[1..] && b == [b[0]] + b[1..];
      StrLessTotal(a[1..], b[1..]);
    }
  }

  /** `sorted([a, b])` as a pair. */
  function SortedPair(a: string, b: string): (p: (string, string))
    ensures p == (a, b) || p == (b, a)
    ensures !StrLess(p.1, p.0)
  {
    StrLessAsymmetric(a, b);
    if StrLess(b, a) then (b, a) else (a, b)
  }

  /** Sorting a pair forgets which element came first. */
  lemma SortedPairSymmetric(a: string, b: string)
    ensures SortedPair(a, b) == SortedPair(b, a)
  {
    if a != b {
      StrLessTotal(a, b);
      StrLessAsymmetric(a, b);
    }
  }

  /** Two pairs with the same elements sort to the same pair. */
  lemma SortedPairBySet(a: string, b: string, c: string, d: string)
    requires {a, b} == {c, d}
    ensures SortedPair(a, b) == SortedPair(c, d)
  {
    if a == c {
      assert b in {c, d} && d in {a, b};
    } else {
      assert a in {c, d} && c in {a, b};
      SortedPairSymmetric(a, b);
    }
  }

  // ------------------------------------------------------------------- ids

  /** The edge id the constructor computes. */
  function EdgeId(src: string, tgt: string, lt: LinkageType, dir: Direction): string
  {
    if dir == Undirected then
      var p := SortedPair(src, tgt);
      p.0 + "__" + lt.Value() + "__" + p.1
    else
      src + "__" + lt.Value() + "__" + tgt
  }

  /** An undirected id does not depend on the order of the endpoints. */
  lemma UndirectedEdgeIdSymmetric(a: string, b: string, lt: LinkageType)
    ensures EdgeId(a, b, lt, Undirected) == EdgeId(b, a, lt, Undirected)
  {
    SortedPairSymmetric(a, b);
  }

  /** A directed id starts with the source and ends with the target. */
  lemma DirectedEdgeIdOrder(a: string, b: string, lt: LinkageType)
    ensures var id := EdgeId(a, b, lt, Directed);
            |a| + |b| <= |id| && id[..|a|] == a && id[|id| - |b|..] == b
  {
    var id := EdgeId(a, b, lt, Directed);
    var mid := "__" + lt.Value() + "__";
    assert id == a + mid + b;
    assert id[..|a|] == a;
    assert id[|id| - |b|..] == b;
  }

  // -------------------------------------------------------- equality, hash

  /** The fields `__eq__` and `__hash__` read. */
  datatype EdgeKey = EdgeKey(src: string, tgt: string, linkageType: LinkageType, direction: Direction)

  /** `get_related_nodes()`: sorted for an undirected edge. */
  function RelatedNodes(k: EdgeKey): (string, string)
  {
    if k.direction == Undirected then SortedPair(k.src, k.tgt) else (k.src, k.tgt)
  }

  /** `GraphEdge.__eq__`. */
  predicate SameEdge(x: EdgeKey, y: EdgeKey)
  {
    if x.direction == Undirected && y.direction == Undirected then
      x.linkageType == y.linkageType
      && {RelatedNodes(x).0, RelatedNodes(x).1} == {RelatedNodes(y).0, RelatedNodes(y).1}
    else
      x.linkageType == y.linkageType && x.direction == y.direction
      && x.src == y.src && x.tgt == y.tgt
  }

  /** The tuple `__hash__` hashes. */
  datatype HashKey =
    | UndirectedHash(lt: LinkageType, nodes: (string, string))
    | DirectedHash(lt: LinkageType, dir: Direction, src: string, tgt: string)

  function Hash(k: EdgeKey): HashKey
  {
    if k.direction == Undirected then UndirectedHash(k.linkageType, SortedPair(k.src, k.tgt))
    else DirectedHash(k.linkageType, k.direction, k.src, k.tgt)
  }

  /** Two undirected edges are equal iff they have one type and one endpoint set. */
  lemma UndirectedSameEdgeIff(x: EdgeKey, y: EdgeKey)
    requires x.direction == Undirected && y.direction == Undirected
    ensures SameEdge(x, y) <==> x.linkageType == y.linkageType && {x.src, x.tgt} == {y.src, y.tgt}
  {
    var p, q := SortedPair(x.src, x.tgt), SortedPair(y.src, y.tgt);
    assert {p.0, p.1} == {x.src, x.tgt};
    assert {q.0, q.1} == {y.src, y.tgt};
  }

  /** Equal edges have equal hashes. */
  lemma SameEdgeSameHash(x: EdgeKey, y: EdgeKey)
    requires SameEdge(x, y)
    ensures Hash(x) == Hash(y)
  {
    if x.direction == Undirected && y.direction == Undirected {
      UndirectedSameEdgeIff(x, y);
      SortedPairBySet(x.src, x.tgt, y.src, y.tgt);
    }
  }

  /** Two edges are equal exactly when their hash tuples are equal. */
  lemma SameEdgeIffSameHash(x: EdgeKey, y: EdgeKey)
    ensures SameEdge(x, y) <==> Hash(x) == Hash(y)
  {
    if SameEdge(x, y) {
      SameEdgeSameHash(x, y);
    } else if x.direction == Undirected && y.direction == Undirected && Hash(x) == Hash(y) {
      var p, q := SortedPair(x.src, x.tgt), SortedPair(y.src, y.tgt);
      assert p == q;
      UndirectedSameEdgeIff(x, y);
    }
  }

  /** Equality is an equivalence: reflexive and symmetric, and transitive. */
  lemma SameEdgeEquivalence(x: EdgeKey, y: EdgeKey, z: EdgeKey)
    ensures SameEdge(x, x)
    ensures SameEdge(x, y) ==> SameEdge(y, x)
    ensures SameEdge(x, y) && SameEdge(y, z) ==> SameEdge(x, z)
  {
  }

  // -------------------------------------------------------------- metadata

  datatype EdgeMetadata = EdgeMetadata(
    weight: real,
    confidence: real,
    source: string,
    discoveredInRound: int,
    evidence: seq<string>,
    contextInfo: map<string, Json>)

  function DefaultMetadata(): EdgeMetadata
  {
    EdgeMetadata(1.0, 1.0, "auto_detected", 0, [], map[])
  }

  /** The metadata keyword arguments of the constructor and of `update_metadata`. */
  datatype MetadataPatch = MetadataPatch(
    weight: Option<real>,
    confidence: Option<real>,
    source: Option<string>,
    discoveredInRound: Option<int>,
    evidence: Option<seq<string>>,
    contextInfo: Option<map<string, Json>>)

  function NoPatch(): MetadataPatch
  {
    MetadataPatch(None, None, None, None, None, None)
  }

  function ApplyPatch(m: EdgeMetadata, p: MetadataPatch): EdgeMetadata
  {
    EdgeMetadata(
      if p.weight.Some? then p.weight.value else m.weight,
      if p.confidence.Some? then p.confidence.value else m.confidence,
      if p.source.Some? then p.source.value else m.source,
      if p.discoveredInRound.Some? then p.discoveredInRound.value else m.discoveredInRound,
      if p.evidence.Some? then p.evidence.value else m.evidence,
      if p.contextInfo.Some? then p.contextInfo.value else m.contextInfo)
  }

  /** An empty patch changes nothing, and applying a patch twice is applying it once. */
  lemma ApplyPatchLaws(m: EdgeMetadata, p: MetadataPatch)
    ensures ApplyPatch(m, NoPatch()) == m
    ensures ApplyPatch(ApplyPatch(m, p), p) == ApplyPatch(m, p)
  {
  }

  /** The evidence list after `add_evidence(ev)`. */
  function WithEvidence(evidence: seq<string>, ev: string): seq<string>
  {
    if ev in evidence then evidence else evidence + [ev]
  }

  /** Adding evidence keeps the list free of duplicates, keeps every earlier item and is idempotent. */
  lemma WithEvidenceLaws(evidence: seq<string>, ev: string)
    ensures ev in WithEvidence(evidence, ev)
    ensures IsSeqPrefix(evidence, WithEvidence(evidence, ev))
    ensures WithEvidence(WithEvidence(evidence, ev), ev) == WithEvidence(evidence, ev)
    ensures NoDuplicates(evidence) ==> NoDuplicates(WithEvidence(evidence, ev))
  {
    var r := WithEvidence(evidence, ev);
    if ev !in evidence {
      assert r[|evidence|] == ev;
      if NoDuplicates(evidence) {
        forall i, j | 0 <= i < j < |r|
          ensures r[i] != r[j]
        {
          if j == |evidence| {
            assert r[i] == evidence[i];
          }
        }
      }
    }
  }

  // ------------------------------------------------------------------ edge

  class GraphEdge {
    const sourceNodeId: string
    const targetNodeId: string
    const linkageType: LinkageType
    const direction: Direction
    const edgeId: string
    const description: string
    const sourceMethod: Option<string>
    const targetMethod: Option<string>
    var metadata: EdgeMetadata

    /** The id was computed from the endpoints, type and direction. */
    predicate Valid()
    {
      edgeId == EdgeId(sourceNodeId, targetNodeId, linkageType, direction)
    }

    /**
     * `GraphEdge(source, target, linkage_type, direction, **kwargs)`: `metadata`
     * defaults to a fresh `EdgeMetadata()`, and the metadata keyword arguments in
     * `patch` are then written over it.
     */
    constructor(src: string, tgt: string, lt: LinkageType, dir: Option<Direction>,
                description: string, sourceMethod: Option<string>, targetMethod: Option<string>,
                metadata: Option<EdgeMetadata>, patch: MetadataPatch)
      ensures Valid()
      ensures sourceNodeId == src && targetNodeId == tgt && linkageType == lt
      ensures direction == (if dir.Some? then dir.value else DefaultDirection(lt))
      ensures this.description == description
      ensures this.sourceMethod == sourceMethod && this.targetMethod == targetMethod
      ensures this.metadata == ApplyPatch(if metadata.Some? then metadata.value else DefaultMetadata(), patch)
    {
      sourceNodeId := src;
      targetNodeId := tgt;
      linkageType := lt;
      var d := if dir.Some? then dir.value else DefaultDirection(lt);
      direction := d;
      edgeId := EdgeId(src, tgt, lt, d);
      this.description := description;
      this.sourceMethod := sourceMethod;
      this.targetMethod := targetMethod;
      this.metadata := ApplyPatch(if metadata.Some? then metadata.value else DefaultMetadata(), patch);
    }

    function Key(): EdgeKey
    {
      EdgeKey(sourceNodeId, targetNodeId, linkageType, direction)
    }

    predicate IsUndirected()
    {
      direction == Undirected
    }

    predicate HasNode(n: string)
    {
      n == sourceNodeId || n == targetNodeId
    }

    /** The endpoint opposite `n`, or `None` when `n` is not an endpoint. */
    function GetOtherNode(n: string): (r: Option<string>)
      ensures r.None? <==> !HasNode(n)
      ensures r.Some? ==> {n, r.value} == {sourceNodeId, targetNodeId}
    {
      if n == sourceNodeId then Some(targetNodeId)
      else if n == targetNodeId then Some(sourceNodeId)
      else None
    }

    /** `__eq__`. */
    predicate Equals(other: GraphEdge)
    {
      SameEdge(Key(), other.Key())
    }

    /** `__hash__`. */
    function HashValue(): HashKey
    {
      Hash(Key())
    }

    /** `add_evidence`: appends `ev` unless it is already recorded. */
    method AddEvidence(ev: string)
      modifies this
      ensures metadata == old(metadata).(evidence := WithEvidence(old(metadata.evidence), ev))
    {
      if ev !in metadata.evidence {
        metadata := metadata.(evidence := metadata.evidence + [ev]);
      }
    }

    /** `update_metadata(**kwargs)` with the keys that are metadata attributes. */
    method UpdateMetadata(patch: MetadataPatch)
      modifies this
      ensures metadata == ApplyPatch(old(metadata), patch)
    {
      metadata := ApplyPatch(metadata, patch);
    }

    /** The constructor arguments that rebuild this edge. */
    function Record(): EdgeRecord
      reads this
    {
      EdgeRecord(sourceNodeId, targetNodeId, linkageType, direction, description,
                 sourceMethod, targetMethod, metadata)
    }

    /** `to_dict`. */
    function ToDict(): Json
      reads this
    {
      Encode(Record(), edgeId)
    }
  }

  /** The other endpoint of the other endpoint is the node itself. */
  lemma GetOtherNodeInvolution(e: GraphEdge, n: string)
    requires e.HasNode(n)
    ensures e.GetOtherNode(n).Some?
    ensures e.HasNode(e.GetOtherNode(n).value)
    ensures e.GetOtherNode(e.GetOtherNode(n).value) == Some(n)
  {
  }

  /** Equal edges have equal hashes, stated on objects. */
  lemma EqualEdgesHashEqual(e: GraphEdge, f: GraphEdge)
    requires e.Equals(f)
    ensures e.HashValue() == f.HashValue()
  {
    SameEdgeSameHash(e.Key(), f.Key());
  }

  // ------------------------------------------------------- dict round trip

  /** Everything `from_dict` passes to the constructor. */
  datatype EdgeRecord = EdgeRecord(
    src: string, tgt: string, linkageType: LinkageType, direction: Direction,
    description: string, sourceMethod: Option<string>, targetMethod: Option<string>,
    metadata: EdgeMetadata)

  function OptStr(o: Option<string>): Json
  {
    if o.Some? then JStr(o.value) else JNull
  }

  function EncodeStrings(ss: seq<string>): (r: seq<Json>)
    ensures |r| == |ss|
  {
    if ss == [] then [] else [JStr(ss[0])] + EncodeStrings(ss[1..])
  }

  function EncodeMetadata(m: EdgeMetadata): Json
  {
    JObj(map[
      "weight" := JNum(m.weight),
      "confidence" := JNum(m.confidence),
      "source" := JStr(m.source),
      "discovered_in_round" := JInt(m.discoveredInRound),
      "evidence" := JList(EncodeStrings(m.evidence)),
      "context_info" := JObj(m.contextInfo)])
  }

  /** The dictionary `to_dict` builds. */
  function Encode(r: EdgeRecord, edgeId: string): Json
  {
    JObj(map[
      "edge_id" := JStr(edgeId),
      "source_node_id" := JStr(r.src),
      "target_node_id" := JStr(r.tgt),
      "linkage_type" := JStr(r.linkageType.Value()),
      "direction" := JStr(r.direction.Value()),
      "description" := JStr(r.description),
      "source_method" := OptStr(r.sourceMethod),
      "target_method" := OptStr(r.targetMethod),
      "metadata" := EncodeMetadata(r.metadata)])
  }

  /** `data[key]`. */
  function Field(m: map<string, Json>, key: string): Result<Json>
  {
    if key in m then Ok(m[key]) else Err("KeyError: " + key)
  }

  function AsStr(j: Json): Result<string>
  {
    if j.JStr? then Ok(j.s) else Err("TypeError: expected a string")
  }

  function AsNumber(j: Json): Result<real>
  {
    if j.JNum? then Ok(j.n) else if j.JInt? then Ok(j.i as real) else Err("TypeError: expected a number")
  }

  function AsOptStr(j: Json): Result<Option<string>>
  {
    if j.JNull? then Ok(None) else if j.JStr? then Ok(Some(j.s)) else Err("TypeError: expected a string")
  }

  function DecodeStrings(js: seq<Json>): (r: Result<seq<string>>)
    ensures r.Ok? ==> |r.value| == |js|
  {
    if js == [] then Ok([])
    else if !js[0].JStr? then Err("TypeError: expected a string")
    else
      var rest := DecodeStrings(js[1..]);
      if rest.Err? then rest else Ok([js[0].s] + rest.value)
  }

  lemma {:induction false} DecodeEncodeStrings(ss: seq<string>)
    ensures DecodeStrings(EncodeStrings(ss)) == Ok(ss)
  {
    if ss != [] {
      DecodeEncodeStrings(ss[1..]);
      var e := EncodeStrings(ss);
      assert e[0] == JStr(ss[0]);
      assert e[1..] == EncodeStrings(ss[1..]);
      assert [ss[0]] + ss[1..] == ss;
    }
  }

  /** `data["metadata"].get(key, default)` for each metadata key. */
  function DecodeMetadata(j: Json): Result<EdgeMetadata>
  {
    if !j.JObj? then Err("TypeError: metadata is not a dict")
    else
      var m := j.fields;
      var weight := if "weight" in m then AsNumber(m["weight"]) else Ok(1.0);
      var confidence := if "confidence" in m then AsNumber(m["confidence"]) else Ok(1.0);
      var source := if "source" in m then AsStr(m["source"]) else Ok("auto_detected");
      var round :=
        if "discovered_in_round" !in m then Ok(0)
        else if m["discovered_in_round"].JInt? then Ok(m["discovered_in_round"].i)
        else Err("TypeError: discovered_in_round");
      var evidence :=
        if "evidence" !in m then Ok([])
        else if m["evidence"].JList? then DecodeStrings(m["evidence"].items)
        else Err("TypeError: evidence");
      var context :=
        if "context_info" !in m then Ok(map[])
        else if m["context_info"].JObj? then Ok(m["context_info"].fields)
        else Err("TypeError: context_info");
      if weight.Err? then Err(weight.error)
      else if confidence.Err? then Err(confidence.error)
      else if source.Err? then Err(source.error)
      else if round.Err? then Err(round.error)
      else if evidence.Err? then Err(evidence.error)
      else if context.Err? then Err(context.error)
      else Ok(EdgeMetadata(weight.value, confidence.value, source.value, round.value,
                           evidence.value, context.value))
  }

  /** `from_dict`: the constructor arguments, or the exception it raises. */
  function FromDict(data: Json): Result<EdgeRecord>
  {
    if !data.JObj? then Err("TypeError: not a dict")
    else
      var m := data.fields;
      var lt := Field(m, "linkage_type");
      var ltv := if lt.Err? then Err(lt.error) else if !lt.value.JStr? then Err("ValueError: linkage_type")
                 else ParseLinkageType(lt.value.s);
      var dir := Field(m, "direction");
      var dirv := if dir.Err? then Err(dir.error) else if !dir.value.JStr? then Err("ValueError: direction")
                  else ParseDirection(dir.value.s);
      var md := Field(m, "metadata");
      var mdv := if md.Err? then Err(md.error) else DecodeMetadata(md.value);
      var src := Field(m, "source_node_id");
      var srcv := if src.Err? then Err(src.error) else AsStr(src.value);
      var tgt := Field(m, "target_node_id");
      var tgtv := if tgt.Err? then Err(tgt.error) else AsStr(tgt.value);
      var desc := if "description" in m then AsStr(m["description"]) else Ok("");
      var sm := if "source_method" in m then AsOptStr(m["source_method"]) else Ok(None);
      var tm := if "target_method" in m then AsOptStr(m["target_method"]) else Ok(None);
      if ltv.Err? then Err(ltv.error)
      else if dirv.Err? then Err(dirv.error)
      else if mdv.Err? then Err(mdv.error)
      else if srcv.Err? then Err(srcv.error)
      else if tgtv.Err? then Err(tgtv.error)
      else if desc.Err? then Err(desc.error)
      else if sm.Err? then Err(sm.error)
      else if tm.Err? then Err(tm.error)
      else Ok(EdgeRecord(srcv.value, tgtv.value, ltv.value, dirv.value, desc.value,
                         sm.value, tm.value, mdv.value))
  }

  /** Decoding the metadata dictionary `to_dict` wrote gives back the metadata. */
  lemma DecodeEncodeMetadata(md: EdgeMetadata)
    ensures DecodeMetadata(EncodeMetadata(md)) == Ok(md)
  {
    DecodeEncodeStrings(md.evidence);
  }

  /** The fields `from_dict` reads, as `to_dict` wrote them. */
  lemma EncodeFields(r: EdgeRecord, edgeId: string)
    ensures var m := Encode(r, edgeId).fields;
      Field(m, "linkage_type") == Ok(JStr(r.linkageType.Value())) &&
      Field(m, "direction") == Ok(JStr(r.direction.Value())) &&
      Field(m, "metadata") == Ok(EncodeMetadata(r.metadata)) &&
      Field(m, "source_node_id") == Ok(JStr(r.src)) &&
      Field(m, "target_node_id") == Ok(JStr(r.tgt)) &&
      "description" in m && m["description"] == JStr(r.description) &&
      "source_method" in m && m["source_method"] == OptStr(r.sourceMethod) &&
      "target_method" in m && m["target_method"] == OptStr(r.targetMethod)
  {
  }

  /** Decoding what `to_dict` wrote gives back the constructor arguments. */
  lemma FromDictEncode(r: EdgeRecord, edgeId: string)
    ensures FromDict(Encode(r, edgeId)) == Ok(r)
  {
    DecodeEncodeMetadata(r.metadata);
    EncodeFields(r, edgeId);
  }

  /**
   * `from_dict(to_dict(e))` rebuilds an edge with the same endpoints, type,
   * direction, description, methods and metadata, and so the same id.
   */
  lemma ToDictRoundTrip(e: GraphEdge)
    requires e.Valid()
    ensures FromDict(e.ToDict()) == Ok(e.Record())
    ensures var r := e.Record(); EdgeId(r.src, r.tgt, r.linkageType, r.direction) == e.edgeId
  {
    FromDictEncode(e.Record(), e.edgeId);
  }

  /** `GraphEdge.from_dict(data)`: a fresh edge built from the decoded arguments. */
  method FromDictEdge(data: Json) returns (r: Result<GraphEdge>)
    ensures r.Err? <==> FromDict(data).Err?
    ensures r.Ok? ==> fresh(r.value) && r.value.Valid() && r.value.Record() == FromDict(data).value
  {
    var d := FromDict(data);
    if d.Err? {
      return Err(d.error);
    }
    var rec := d.value;
    var e := new GraphEdge(rec.src, rec.tgt, rec.linkageType, Some(rec.direction), rec.description,
                           rec.sourceMethod, rec.targetMethod, Some(rec.metadata), NoPatch());
    return Ok(e);
  }
}
