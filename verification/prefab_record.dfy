/**
 * The prefab-function record shared by every component, and the analysed game
 * state that the scoring code reads.
 *
 * A prefab function is a JSON object in the repository; each key the code reads
 * is a field here, `None` meaning that the key is absent.
 */
module PrefabRecord {
  import opened Common

  /** One entry of a function's `parameters` list. */
  datatype Param = Param(name: Option<string>, ptype: Option<string>, description: Option<string>)

  datatype PrefabFunction = PrefabFunction(
    functionId: Option<string>,
    functionType: Option<string>,
    name: Option<string>,
    description: Option<string>,
    strategyDescription: Option<string>,
    linkageType: Option<string>,
    executionType: Option<string>,
    tacticCategory: Option<string>,
    sourceUnit: Option<string>,
    targetUnit: Option<string>,
    units: Option<seq<string>>,
    executionFlow: Option<seq<string>>,
    applicableMaps: Option<seq<string>>,
    parameters: Option<seq<Param>>,
    confidence: Option<real>,
    /** `prerequisites.required_units`; `None` when either key is absent. */
    prereqUnits: Option<seq<string>>,
    /** The top-level `required_units` key. */
    requiredUnits: Option<seq<string>>,
    participatingUnits: Option<seq<string>>,
    synergyType: Option<string>,
    difficultyLevel: Option<string>,
    usageCount: Option<int>,
    successRate: Option<real>)

  /** The record with no key at all. */
  function EmptyFunction(): (f: PrefabFunction)
    ensures f.functionId.None? && f.functionType.None? && f.executionType.None?
  {
    PrefabFunction(None, None, None, None, None, None, None, None, None, None, None,
                   None, None, None, None, None, None, None, None, None, None, None)
  }

  /** `func.get(key, default)` for the string-valued keys. */
  function StrOr(o: Option<string>, default: string): string
  {
    if o.Some? then o.value else default
  }

  function ListOr<T>(o: Option<seq<T>>): seq<T>
  {
    if o.Some? then o.value else []
  }

  function RealOr(o: Option<real>, default: real): real
  {
    if o.Some? then o.value else default
  }

  // ------------------------------------------------------------ unit counts

  /** A `{unit_type: count}` dictionary, as its items in insertion order. */
  type TypeCounts = seq<(string, nat)>

  predicate HasKey(c: TypeCounts, k: string)
  {
    c != [] && (c[0].0 == k || HasKey(c[1..], k))
  }

  /** `counts.get(k, 0)`. */
  function CountOf(c: TypeCounts, k: string): (n: nat)
    ensures !HasKey(c, k) ==> n == 0
  {
    if c == [] then 0 else if c[0].0 == k then c[0].1 else CountOf(c[1..], k)
  }

  /** The keys of a dictionary are distinct. */
  predicate DistinctKeys(c: TypeCounts)
  {
    c == [] || (!HasKey(c[1..], c[0].0) && DistinctKeys(c[1..]))
  }

  function SumCounts(c: TypeCounts): nat
  {
    if c == [] then 0 else c[0].1 + SumCounts(c[1..])
  }

  /** `counts[k] = counts.get(k, 0) + 1`: bumps an existing key in place or appends it. */
  function Bump(c: TypeCounts, k: string): (r: TypeCounts)
    ensures |r| == (if HasKey(c, k) then |c| else |c| + 1)
    ensures SumCounts(r) == SumCounts(c) + 1
  {
    if c == [] then [(k, 1)]
    else if c[0].0 == k then [(k, c[0].1 + 1)] + c[1..]
    else [c[0]] + Bump(c[1..], k)
  }

  lemma {:induction false} BumpHasKey(c: TypeCounts, k: string, x: string)
    ensures HasKey(Bump(c, k), x) <==> HasKey(c, x) || x == k
  {
    if c != [] && c[0].0 != k {
      BumpHasKey(c[1..], k, x);
    }
  }

  lemma {:induction false} BumpCount(c: TypeCounts, k: string, x: string)
    ensures CountOf(Bump(c, k), x) == CountOf(c, x) + (if x == k then 1 else 0)
  {
    if c != [] && c[0].0 != k {
      BumpCount(c[1..], k, x);
    }
  }

  lemma {:induction false} BumpDistinct(c: TypeCounts, k: string)
    requires DistinctKeys(c)
    ensures DistinctKeys(Bump(c, k))
  {
    if c != [] && c[0].0 != k {
      BumpDistinct(c[1..], k);
      BumpHasKey(c[1..], k, c[0].0);
    }
  }

  // ------------------------------------------------------------ game state

  /** The dictionary `_analyze_game_state` returns, less its free text. */
  datatype GameState = GameState(
    friendlyCount: nat,
    enemyCount: nat,
    friendlyTypes: TypeCounts,
    enemyTypes: TypeCounts,
    friendlyDetailed: TypeCounts,
    enemyDetailed: TypeCounts,
    hasMedivac: bool,
    hasLowHealthUnits: bool,
    hasEnergyUnits: bool,
    highEnergyUnits: bool,
    unitTypeDiversity: real,
    /** Optional key `game_stage`, read only by the handler's relevance. */
    gameStage: Option<string>)
}
