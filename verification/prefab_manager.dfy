/**
 * The prefab-function manager of the prefab system: it answers "which
 * functions fit this observation" through the handler, remembers each answer
 * in a bounded first-in-first-out cache keyed by the unit counts and the race,
 * and folds execution outcomes back into a function's usage count, success
 * rate and confidence.
 */
module PrefabManager {
  import opened Common
  import opened PrefabRecord
  import opened PerformanceMonitor
  import opened PrefabLoader
  import opened Handler

  // ================================================================ configuration

  /** The keys of a configuration dictionary the manager reads; `extraKeys` counts any other keys. */
  datatype ConfigDict = ConfigDict(topK: Option<int>, cacheSize: Option<int>, enableMonitor: Option<bool>, extraKeys: nat)

  /** The configuration in effect, every `config.get(key, default)` already applied. */
  datatype ManagerConfig = ManagerConfig(topK: int, cacheSize: int, enableMonitor: bool)

  const DefaultConfig: ManagerConfig := ManagerConfig(3, 100, true)

  /**
   * `config or {...}`: a missing or empty dictionary gives the defaults; a
   * given one keeps its own values, falls back to 3 and 100 for `top_k` and
   * `cache_size`, and enables the monitor only when it says so.
   */
  function EffectiveConfig(config: Option<ConfigDict>): (r: ManagerConfig)
    ensures config.None? || config.value == ConfigDict(None, None, None, 0) ==> r == DefaultConfig
    ensures config.Some? && config.value != ConfigDict(None, None, None, 0) ==>
      (r.enableMonitor <==> config.value.enableMonitor == Some(true))
    ensures config.Some? && config.value.cacheSize.Some? ==> r.cacheSize == config.value.cacheSize.value
  {
    if config.None? || config.value == ConfigDict(None, None, None, 0) then DefaultConfig
    else
      var c := config.value;
      ManagerConfig(if c.topK.Some? then c.topK.value else 3,
                    if c.cacheSize.Some? then c.cacheSize.value else 100,
                    c.enableMonitor == Some(true))
  }

  // ================================================================ the result cache

  /** The result cache: its entries, and their keys in insertion order (the dictionary's iteration order). */
  datatype Cache = Cache(entries: map<string, seq<PrefabFunction>>, order: seq<string>)

  const EmptyCache: Cache := Cache(map[], [])

  /** The order lists every key of the cache exactly once. */
  predicate WellFormed(c: Cache)
  {
    NoDuplicates(c.order) && (forall k :: k in c.entries ==> k in c.order) && (forall k :: k in c.order ==> k in c.entries)
  }

  /** `del cache[next(iter(cache))]`: drops the oldest key. */
  function Evicted(c: Cache): Cache
    requires c.order != []
  {
    Cache(c.entries - {c.order[0]}, c.order[1..])
  }

  /** `cache[key] = result`: a new key goes last, an existing key keeps its place. */
  function Stored(c: Cache, key: string, v: seq<PrefabFunction>): Cache
  {
    Cache(c.entries[key := v], if key in c.order then c.order else c.order + [key])
  }

  /**
   * `_cache_result`: a cache holding `size` entries or more first evicts its
   * oldest entry. `None` when there is nothing to evict (`next` on an empty
   * dictionary raises `StopIteration`), which is exactly when `size <= 0` and
   * the cache is empty.
   */
  function CacheResult(c: Cache, key: string, v: seq<PrefabFunction>, size: int): (r: Option<Cache>)
    ensures r.None? <==> size <= 0 && c.order == []
    ensures r.Some? ==> key in r.value.entries && r.value.entries[key] == v
  {
    if |c.order| >= size then
      if c.order == [] then None else Some(Stored(Evicted(c), key, v))
    else Some(Stored(c, key, v))
  }

  lemma EvictedWellFormed(c: Cache)
    requires WellFormed(c) && c.order != []
    ensures WellFormed(Evicted(c))
  {
    var e := Evicted(c);
    forall k ensures k in e.entries <==> k in e.order {
      if k in e.order {
        var j :| 0 <= j < |e.order| && e.order[j] == k;
        assert c.order[j + 1] == k;
      }
    }
  }

  lemma StoredWellFormed(c: Cache, key: string, v: seq<PrefabFunction>)
    requires WellFormed(c)
    ensures WellFormed(Stored(c, key, v))
    ensures |Stored(c, key, v).order| == |c.order| + (if key in c.order then 0 else 1)
  {
  }

  /** Under `WellFormed`, `len(cache)` is the length of the key order. */
  lemma {:induction false} CacheSize(c: Cache)
    requires WellFormed(c)
    ensures |c.entries| == |c.order|
    decreases |c.order|
  {
    if c.order == [] {
      assert c.entries.Keys == {};
    } else {
      var e := Evicted(c);
      EvictedWellFormed(c);
      CacheSize(e);
      assert e.entries.Keys == c.entries.Keys - {c.order[0]};
      assert |c.entries.Keys| == |e.entries.Keys| + 1;
    }
  }

  /**
   * Caching keeps the cache well formed and, when the cache was within
   * `size`, within `size`: it never exceeds `cache_size`.
   */
  lemma CacheBounded(c: Cache, key: string, v: seq<PrefabFunction>, size: int)
    requires WellFormed(c) && |c.order| <= (if size > 0 then size else 0)
    ensures CacheResult(c, key, v, size).Some? ==> size > 0
    ensures CacheResult(c, key, v, size).Some? ==> WellFormed(CacheResult(c, key, v, size).value)
    ensures CacheResult(c, key, v, size).Some? ==> |CacheResult(c, key, v, size).value.order| <= size
  {
    if |c.order| >= size && c.order != [] {
      EvictedWellFormed(c);
      StoredWellFormed(Evicted(c), key, v);
    } else if |c.order| < size {
      StoredWellFormed(c, key, v);
    }
  }

  /**
   * A full cache evicts its oldest key (unless that is the key being stored)
   * and keeps every other entry; a cache with room loses no entry; a new key
   * becomes the newest.
   */
  lemma CacheEvictsOldest(c: Cache, key: string, v: seq<PrefabFunction>, size: int)
    requires WellFormed(c)
    ensures CacheResult(c, key, v, size).Some? && |c.order| >= size ==>
      c.order != [] && (c.order[0] != key ==> c.order[0] !in CacheResult(c, key, v, size).value.entries)
    ensures CacheResult(c, key, v, size).Some? && |c.order| >= size ==>
      forall k :: k in c.entries && k != c.order[0] && k != key ==>
        k in CacheResult(c, key, v, size).value.entries && CacheResult(c, key, v, size).value.entries[k] == c.entries[k]
    ensures CacheResult(c, key, v, size).Some? && |c.order| < size ==>
      forall k :: k in c.entries && k != key ==>
        k in CacheResult(c, key, v, size).value.entries && CacheResult(c, key, v, size).value.entries[k] == c.entries[k]
    ensures CacheResult(c, key, v, size).Some? && key !in c.entries ==>
      var o := CacheResult(c, key, v, size).value.order; o != [] && o[|o| - 1] == key
  {
    if |c.order| >= size && c.order != [] {
      EvictedWellFormed(c);
    }
  }

  // ================================================================ the cache key

  /** `race or 'unknown'`. */
  function RaceLabel(race: Option<string>): (r: string)
    ensures r != ""
  {
    if race.Some? && race.value != "" then race.value else "unknown"
  }

  function KeyOf(friendly: nat, enemy: nat, race: string): string
  {
    NatToString(friendly) + "_" + NatToString(enemy) + "_" + race
  }

  /** `_generate_cache_key`: the friendly count, the enemy count and the race, joined by '_'. */
  function CacheKey(units: seq<UnitObs>, race: Option<string>): string
  {
    KeyOf(|FriendlyUnits(units)|, |EnemyUnits(units)|, RaceLabel(race))
  }

  /** A run of digits ends at the first '_', so it can be read back off the front. */
  lemma DigitsBeforeSeparator(p: string, q: string, x: string, y: string)
    requires AllDigits(p) && AllDigits(q)
    requires p + "_" + x == q + "_" + y
    ensures p == q && x == y
  {
    var s := p + "_" + x;
    assert s[|p|] == '_';
    assert forall i :: 0 <= i < |q| ==> s[i] == q[i];
    assert |p| >= |q|;
    var t := q + "_" + y;
    assert t[|q|] == '_';
    assert forall i :: 0 <= i < |p| ==> t[i] == p[i];
    assert |q| >= |p|;
    assert p == s[..|p|] == q;
    assert x == s[|p| + 1..] == y;
  }

  lemma KeyOfInjective(a: nat, b: nat, r: string, c: nat, d: nat, s: string)
    requires KeyOf(a, b, r) == KeyOf(c, d, s)
    ensures a == c && b == d && r == s
  {
    var na, nb, nc, nd := NatToString(a), NatToString(b), NatToString(c), NatToString(d);
    assert KeyOf(a, b, r) == na + "_" + (nb + "_" + r);
    assert KeyOf(c, d, s) == nc + "_" + (nd + "_" + s);
    DigitsBeforeSeparator(na, nc, nb + "_" + r, nd + "_" + s);
    DigitsBeforeSeparator(nb, nd, r, s);
    NatToStringInjective(a, c);
    NatToStringInjective(b, d);
  }

  /**
   * Two observations share a cache key exactly when they have the same
   * friendly count, the same enemy count and the same race label: nothing
   * else about the units reaches the key.
   */
  lemma CacheKeyIff(u1: seq<UnitObs>, r1: Option<string>, u2: seq<UnitObs>, r2: Option<string>)
    ensures CacheKey(u1, r1) == CacheKey(u2, r2) <==>
      |FriendlyUnits(u1)| == |FriendlyUnits(u2)| && |EnemyUnits(u1)| == |EnemyUnits(u2)| &&
      RaceLabel(r1) == RaceLabel(r2)
  {
    if CacheKey(u1, r1) == CacheKey(u2, r2) {
      KeyOfInjective(|FriendlyUnits(u1)|, |EnemyUnits(u1)|, RaceLabel(r1),
                     |FriendlyUnits(u2)|, |EnemyUnits(u2)|, RaceLabel(r2));
    }
  }

  // ================================================================ game state

  /**
   * `_analyze_game_state`: counts and per-base-type counts of both sides,
   * and the low-health and Medivac flags. The keys it does not write
   * (detailed types, energy flags, diversity, stage) hold the values the
   * handler reads for a missing key.
   */
  function ManagerGameState(friendly: seq<UnitObs>, enemy: seq<UnitObs>): GameState
  {
    GameState(|friendly|, |enemy|, TypesOf(friendly, false), TypesOf(enemy, false), [], [],
              AnyMedivac(friendly), AnyLowHealth(friendly), false, false, 0.0, None)
  }

  /** The two counting loops of `_analyze_game_state`. */
  method AnalyzeObservation(friendly: seq<UnitObs>, enemy: seq<UnitObs>) returns (g: GameState)
    ensures g == ManagerGameState(friendly, enemy)
  {
    var ft := CountTypes(friendly);
    var et := CountTypes(enemy);
    g := GameState(|friendly|, |enemy|, ft, et, [], [], AnyMedivac(friendly), AnyLowHealth(friendly),
                   false, false, 0.0, None);
  }

  /** One counting loop: each unit bumps the count of its base type. */
  method CountTypes(units: seq<UnitObs>) returns (types: seq<(string, int)>)
    ensures types == TypesOf(units, false)
  {
    types := [];
    var i := 0;
    while i < |units|
      invariant 0 <= i <= |units|
      invariant types == TypesOf(units[..i], false)
    {
      assert units[..i + 1][..i] == units[..i];
      types := Bump(types, BaseType(units[i].unitName));
      i := i + 1;
    }
    assert units[..i] == units;
  }

  /**
   * Of an observation, the two counts add up to the number of units, the
   * per-type counts add up to each side's count, and each type counts
   * exactly the units of that base type.
   */
  lemma ManagerStateCounts(units: seq<UnitObs>, t: string)
    ensures var g := ManagerGameState(FriendlyUnits(units), EnemyUnits(units));
      g.friendlyCount + g.enemyCount == |units| &&
      SumCounts(g.friendlyTypes) == g.friendlyCount && SumCounts(g.enemyTypes) == g.enemyCount &&
      CountOf(g.friendlyTypes, t) == UnitsOfType(FriendlyUnits(units), t, false) &&
      CountOf(g.enemyTypes, t) == UnitsOfType(EnemyUnits(units), t, false)
  {
    UnitsPartition(units);
    TypesOfCounts(FriendlyUnits(units), false, t);
    TypesOfCounts(EnemyUnits(units), false, t);
  }

  // ================================================================ race detection

  const ManagerProtoss: seq<string> := ["zealot", "stalker", "phoenix", "immortal", "archon"]
  const ManagerTerran: seq<string> := ["marine", "marauder", "medivac", "siegetank", "battlecruiser"]
  const ManagerZerg: seq<string> := ["zergling", "baneling", "roach", "hydralisk", "ultralisk"]

  /** The race one unit name reveals (protoss first, then terran, then zerg), or "". */
  function ManagerUnitRace(name: string): (r: string)
    ensures r == "" || r == "protoss" || r == "terran" || r == "zerg"
  {
    var n := Lower(name);
    if AnyIn(n, ManagerProtoss) then "protoss"
    else if AnyIn(n, ManagerTerran) then "terran"
    else if AnyIn(n, ManagerZerg) then "zerg"
    else ""
  }

  /** `_detect_race` over the friendly units: the first revealed race, else "unknown". */
  function ManagerDetectedRace(friendly: seq<UnitObs>): (r: string)
    ensures r == "protoss" || r == "terran" || r == "zerg" || r == "unknown"
  {
    if friendly == [] then "unknown"
    else if ManagerUnitRace(friendly[0].unitName) != "" then ManagerUnitRace(friendly[0].unitName)
    else ManagerDetectedRace(friendly[1..])
  }

  /** The detected race is the race of the first friendly unit that reveals one. */
  lemma {:induction false} ManagerRaceFirst(friendly: seq<UnitObs>, i: nat)
    requires i < |friendly| && ManagerUnitRace(friendly[i].unitName) != ""
    requires forall j :: 0 <= j < i ==> ManagerUnitRace(friendly[j].unitName) == ""
    ensures ManagerDetectedRace(friendly) == ManagerUnitRace(friendly[i].unitName)
  {
    if i > 0 {
      assert ManagerUnitRace(friendly[0].unitName) == "";
      assert forall j :: 0 <= j < i - 1 ==> friendly[1..][j] == friendly[j + 1];
      ManagerRaceFirst(friendly[1..], i - 1);
    }
  }

  /** The race is "unknown" exactly when no friendly unit reveals one (in particular with none). */
  lemma {:induction false} ManagerRaceUnknown(friendly: seq<UnitObs>)
    ensures ManagerDetectedRace(friendly) == "unknown" <==>
      forall i :: 0 <= i < |friendly| ==> ManagerUnitRace(friendly[i].unitName) == ""
  {
    if friendly != [] {
      ManagerRaceUnknown(friendly[1..]);
      if ManagerUnitRace(friendly[0].unitName) == "" {
        assert forall i :: 1 <= i < |friendly| ==> friendly[i] == friendly[1..][i - 1];
      }
    }
  }

  // ================================================================ relevance

  /** Every required unit's last '_' segment, lower-cased, occurs in some friendly type key. */
  predicate RequiredUnitsPresent(f: PrefabFunction, g: GameState)
  {
    f.requiredUnits.None? ||
    forall i :: 0 <= i < |f.requiredUnits.value| ==>
      AnyKeyHas(g.friendlyTypes, Lower(LastSegment(f.requiredUnits.value[i])))
  }

  /** Defence is ruled out when outnumbering the enemy, offence when outnumbered. */
  predicate TacticAllowed(f: PrefabFunction, g: GameState)
  {
    f.tacticCategory.None? ||
    !((f.tacticCategory.value == "defense" && g.friendlyCount > g.enemyCount) ||
      (f.tacticCategory.value == "offense" && g.friendlyCount < g.enemyCount))
  }

  /** `_is_function_relevant`. */
  predicate IsFunctionRelevant(f: PrefabFunction, g: GameState)
  {
    RequiredUnitsPresent(f, g) && TacticAllowed(f, g)
  }

  /** `_is_function_relevant`: the required units first, then the tactic. */
  method CheckFunctionRelevant(f: PrefabFunction, g: GameState) returns (relevant: bool)
    ensures relevant <==> IsFunctionRelevant(f, g)
    ensures relevant && f.tacticCategory == Some("defense") ==> g.friendlyCount <= g.enemyCount
    ensures relevant && f.tacticCategory == Some("offense") ==> g.friendlyCount >= g.enemyCount
  {
    if f.requiredUnits.Some? {
      var present := CheckRequiredUnits(f.requiredUnits.value, g);
      if !present {
        return false;
      }
    }
    if f.tacticCategory.Some? {
      var category := f.tacticCategory.value;
      if category == "defense" && g.friendlyCount > g.enemyCount {
        return false;
      }
      if category == "offense" && g.friendlyCount < g.enemyCount {
        return false;
      }
    }
    return true;
  }

  /** The loop over the required units, returning on the first missing one. */
  method CheckRequiredUnits(req: seq<string>, g: GameState) returns (present: bool)
    ensures present <==> forall i :: 0 <= i < |req| ==> AnyKeyHas(g.friendlyTypes, Lower(LastSegment(req[i])))
  {
    var i := 0;
    while i < |req|
      invariant 0 <= i <= |req|
      invariant forall j :: 0 <= j < i ==> AnyKeyHas(g.friendlyTypes, Lower(LastSegment(req[j])))
    {
      if !AnyKeyHas(g.friendlyTypes, Lower(LastSegment(req[i]))) {
        return false;
      }
      i := i + 1;
    }
    return true;
  }

  /** The filtering loop of `_retrieve_relevant_functions`. */
  function RelevantOf(fs: seq<PrefabFunction>, g: GameState): (r: seq<PrefabFunction>)
    ensures |r| <= |fs|
  {
    if fs == [] then []
    else RelevantOf(fs[..|fs| - 1], g) + (if IsFunctionRelevant(fs[|fs| - 1], g) then [fs[|fs| - 1]] else [])
  }

  /** `_retrieve_relevant_functions`: the catalog searched by race, then filtered by relevance. */
  function Retrieved(c: Catalog, g: GameState, race: string): seq<PrefabFunction>
  {
    RelevantOf(SearchFunctions(c, Query(None, Some(race), None)), g)
  }

  lemma {:induction false} RelevantMembers(fs: seq<PrefabFunction>, g: GameState, f: PrefabFunction)
    ensures f in RelevantOf(fs, g) <==> f in fs && IsFunctionRelevant(f, g)
  {
    if fs != [] {
      RelevantMembers(fs[..|fs| - 1], g, f);
      assert fs == fs[..|fs| - 1] + [fs[|fs| - 1]];
    }
  }

  /**
   * A function is retrieved exactly when it is in the catalog, its id or name
   * contains the race, and it is relevant: every required unit is on the
   * field, no defence while outnumbering the enemy, no offence while
   * outnumbered.
   */
  lemma RetrievedMembers(c: Catalog, g: GameState, race: string, f: PrefabFunction)
    ensures f in Retrieved(c, g, race) <==> f in c.all && RaceMatches(f, Lower(race)) && IsFunctionRelevant(f, g)
    ensures f in Retrieved(c, g, race) && f.tacticCategory == Some("defense") ==> g.friendlyCount <= g.enemyCount
    ensures f in Retrieved(c, g, race) && f.tacticCategory == Some("offense") ==> g.friendlyCount >= g.enemyCount
    ensures f in Retrieved(c, g, race) && f.requiredUnits.Some? ==>
      forall u :: u in f.requiredUnits.value ==> AnyKeyHas(g.friendlyTypes, Lower(LastSegment(u)))
  {
    var q := Query(None, Some(race), None);
    RelevantMembers(SearchFunctions(c, q), g, f);
    SearchMembers(c.all, q, f);
  }

  lemma RetrievedNamed(c: Catalog, g: GameState, race: string)
    requires AllNamed(c.all)
    ensures AllNamed(Retrieved(c, g, race))
  {
    var r := Retrieved(c, g, race);
    forall i | 0 <= i < |r| ensures Named(r[i]) {
      RetrievedMembers(c, g, race, r[i]);
    }
  }

  lemma RelevantOfStep(fs: seq<PrefabFunction>, i: nat, g: GameState)
    requires i < |fs|
    ensures RelevantOf(fs[..i + 1], g) == RelevantOf(fs[..i], g) + (if IsFunctionRelevant(fs[i], g) then [fs[i]] else [])
  {
    assert fs[..i + 1][..i] == fs[..i];
  }

  /** `_retrieve_relevant_functions`: the loader's race search, then the relevance loop. */
  method RetrieveRelevantFunctions(c: Catalog, g: GameState, race: string) returns (r: seq<PrefabFunction>)
    ensures r == Retrieved(c, g, race)
  {
    var found := SearchFunctions(c, Query(None, Some(race), None));
    r := [];
    var i := 0;
    while i < |found|
      invariant 0 <= i <= |found|
      invariant r == RelevantOf(found[..i], g)
    {
      RelevantOfStep(found, i, g);
      var relevant := CheckFunctionRelevant(found[i], g);
      if relevant {
        r := r + [found[i]];
      }
      i := i + 1;
    }
    assert found[..i] == found;
  }

  // ================================================================ score updates

  /** `function.get('usage_count', 0)`. */
  function UsageOr0(f: PrefabFunction): int
  {
    if f.usageCount.Some? then f.usageCount.value else 0
  }

  function Outcome(success: bool): real
  {
    if success then 1.0 else 0.0
  }

  /** The running mean divides by the new usage count, which is zero when the stored count is -1. */
  predicate ScoreUpdateRaises(f: PrefabFunction)
  {
    f.successRate.Some? && UsageOr0(f) + 1 == 0
  }

  /** `(old_rate * old_count + outcome) / (old_count + 1)`. */
  function RunningRate(rate: real, previous: int, success: bool): real
    requires previous + 1 != 0
  {
    (rate * (previous as real) + Outcome(success)) / ((previous + 1) as real)
  }

  /** `max(0.1, min(1.0, confidence ± 0.05))`. */
  function AdjustedConfidence(confidence: real, success: bool): real
  {
    Clamp(confidence + (if success then 0.05 else -0.05), 0.1, 1.0)
  }

  /**
   * `update_function_score` on one function: the usage count goes up by
   * one; the success rate becomes the running mean over the new count, or the
   * outcome itself when there was none; a confidence present is nudged and
   * clamped. When the running mean divides by zero only the new usage count
   * has been written.
   */
  function ScoreUpdated(f: PrefabFunction, success: bool): (r: PrefabFunction)
    ensures r.usageCount == Some(UsageOr0(f) + 1)
    ensures r.functionId == f.functionId && r.name == f.name
  {
    var previous := UsageOr0(f);
    var counted := f.(usageCount := Some(previous + 1));
    if ScoreUpdateRaises(f) then counted
    else
      var rate := if f.successRate.Some? then RunningRate(f.successRate.value, previous, success) else Outcome(success);
      counted.(successRate := Some(rate),
               confidence := if f.confidence.Some? then Some(AdjustedConfidence(f.confidence.value, success)) else None)
  }

  lemma DivUnit(x: real, d: real)
    requires 0.0 <= x <= d && d > 0.0
    ensures 0.0 <= x / d <= 1.0
  {
    assert x / d * d == x;
  }

  /** A success rate in [0, 1] with a non-negative usage count stays in [0, 1]. */
  lemma SuccessRateStaysInUnit(f: PrefabFunction, success: bool)
    requires UsageOr0(f) >= 0
    requires f.successRate.Some? ==> 0.0 <= f.successRate.value <= 1.0
    ensures ScoreUpdated(f, success).successRate.Some?
    ensures 0.0 <= ScoreUpdated(f, success).successRate.value <= 1.0
  {
    if f.successRate.Some? {
      var k := UsageOr0(f) as real;
      var rate := f.successRate.value;
      assert 0.0 <= rate * k <= k by {
        assert (1.0 - rate) * k >= 0.0;
      }
      DivUnit(rate * k + Outcome(success), k + 1.0);
      assert RunningRate(rate, UsageOr0(f), success) == (rate * k + Outcome(success)) / (k + 1.0);
    }
  }

  /** The number of successes among the outcomes. */
  function SuccessCount(outcomes: seq<bool>): (n: nat)
    ensures n <= |outcomes|
  {
    if outcomes == [] then 0
    else SuccessCount(outcomes[..|outcomes| - 1]) + (if outcomes[|outcomes| - 1] then 1 else 0)
  }

  /** `update_function_score` applied once per outcome, in order. */
  function Replayed(f: PrefabFunction, outcomes: seq<bool>): PrefabFunction
  {
    if outcomes == [] then f
    else ScoreUpdated(Replayed(f, outcomes[..|outcomes| - 1]), outcomes[|outcomes| - 1])
  }

  /**
   * Starting from a function never scored, after any non-empty run of
   * outcomes the usage count is their number and the success rate is the
   * fraction of successes: the rate is the running mean of the outcomes.
   */
  lemma {:induction false} RunningMean(f: PrefabFunction, outcomes: seq<bool>)
    requires UsageOr0(f) == 0 && f.successRate.None?
    requires outcomes != []
    ensures Replayed(f, outcomes).usageCount == Some(|outcomes|)
    ensures Replayed(f, outcomes).successRate == Some((SuccessCount(outcomes) as real) / (|outcomes| as real))
  {
    var init := outcomes[..|outcomes| - 1];
    var last := outcomes[|outcomes| - 1];
    if init == [] {
      assert SuccessCount(outcomes) == (if last then 1 else 0);
    } else {
      RunningMean(f, init);
      MeanFold(Replayed(f, init), last, SuccessCount(init) as real, |init|);
      assert SuccessCount(outcomes) as real == SuccessCount(init) as real + Outcome(last);
    }
  }

  /** One update folds the outcome into a mean of `k` outcomes. */
  lemma MeanFold(g: PrefabFunction, last: bool, s: real, k: nat)
    requires k > 0 && UsageOr0(g) == k && g.successRate == Some(s / (k as real))
    ensures ScoreUpdated(g, last).successRate == Some((s + Outcome(last)) / ((k + 1) as real))
  {
    assert ScoreUpdated(g, last).successRate == Some(RunningRate(s / (k as real), k, last));
    MeanStep(s, k, last);
  }

  /** Folding one more outcome into the mean of `k` outcomes. */
  lemma MeanStep(s: real, k: nat, last: bool)
    requires k > 0
    ensures RunningRate(s / (k as real), k, last) == (s + Outcome(last)) / ((k + 1) as real)
  {
    var kr := k as real;
    assert (s / kr) * kr == s;
    assert RunningRate(s / kr, k, last) == ((s / kr) * kr + Outcome(last)) / ((k + 1) as real);
  }

  /**
   * A confidence present moves by at most 0.05, up on success and down on
   * failure, and is kept within [0.1, 1.0]; a missing one stays missing.
   */
  lemma ConfidenceNudged(f: PrefabFunction, success: bool)
    requires !ScoreUpdateRaises(f)
    ensures f.confidence.None? ==> ScoreUpdated(f, success).confidence.None?
    ensures f.confidence.Some? ==> ScoreUpdated(f, success).confidence.Some?
    ensures f.confidence.Some? ==> 0.1 <= ScoreUpdated(f, success).confidence.value <= 1.0
    ensures f.confidence.Some? && 0.1 <= f.confidence.value <= 1.0 && success ==>
      f.confidence.value <= ScoreUpdated(f, success).confidence.value <= f.confidence.value + 0.05
    ensures f.confidence.Some? && 0.1 <= f.confidence.value <= 1.0 && !success ==>
      f.confidence.value - 0.05 <= ScoreUpdated(f, success).confidence.value <= f.confidence.value
  {
  }

  /** The updated function keeps its place: a later lookup by id finds the updated entry. */
  lemma {:induction false} ScoreUpdateVisible(fs: seq<PrefabFunction>, id: string, i: nat, success: bool)
    requires FindById(fs, id) == Some(i)
    ensures FindById(fs[i := ScoreUpdated(fs[i], success)], id) == Some(i)
  {
    if i > 0 {
      assert fs[i := ScoreUpdated(fs[i], success)][1..] == fs[1..][i - 1 := ScoreUpdated(fs[i], success)];
      ScoreUpdateVisible(fs[1..], id, i - 1, success);
    }
  }

  // ================================================================ usage records

  /** What the manager reports for one selected function: step -1, selected, relevance 0. */
  function ManagerUsageRecord(f: PrefabFunction): UsageRecord
  {
    UsageRecord(StrOr(f.functionId, "unknown"), StrOr(f.name, "unknown"), -1, true, RealOr(f.confidence, 0.0), 0.0)
  }

  function ManagerUsageRecords(fs: seq<PrefabFunction>): (r: seq<UsageRecord>)
    ensures |r| == |fs|
    ensures forall i :: 0 <= i < |fs| ==> r[i] == ManagerUsageRecord(fs[i])
  {
    if fs == [] then [] else ManagerUsageRecords(fs[..|fs| - 1]) + [ManagerUsageRecord(fs[|fs| - 1])]
  }

  /** Every occurrence of `f` in a list replaced by `g`. */
  function Replaced(fs: seq<PrefabFunction>, f: PrefabFunction, g: PrefabFunction): (r: seq<PrefabFunction>)
    ensures |r| == |fs|
    ensures forall j :: 0 <= j < |fs| ==> r[j] == (if fs[j] == f then g else fs[j])
  {
    if fs == [] then [] else Replaced(fs[..|fs| - 1], f, g) + [if fs[|fs| - 1] == f then g else fs[|fs| - 1]]
  }

  /** Every list of a dictionary with each occurrence of `f` replaced by `g`; the keys stay. */
  function Touched(m: map<string, seq<PrefabFunction>>, f: PrefabFunction, g: PrefabFunction): (r: map<string, seq<PrefabFunction>>)
    ensures r.Keys == m.Keys
    ensures forall k :: k in m ==> r[k] == Replaced(m[k], f, g)
  {
    map k | k in m :: Replaced(m[k], f, g)
  }

  // ================================================================ the manager

  class PrefabFunctionManager {
    const config: ManagerConfig
    /** `functions`: the loaded catalog; updates reach it through `all`. */
    var catalog: Catalog
    const handler: PrefabFunctionHandler
    /** `performance_monitor`, consulted only when `config.enableMonitor`. */
    const monitor: PrefabPerformanceMonitor
    var cache: Cache

    predicate Valid()
      reads this
    {
      WellFormed(cache) &&
      |cache.order| <= (if config.cacheSize > 0 then config.cacheSize else 0) &&
      monitor != handler.monitor
    }

    /** `__init__` with the configuration, the loaded catalog and the handler given. */
    constructor(config: Option<ConfigDict>, catalog: Catalog, handler: PrefabFunctionHandler)
      ensures this.config == EffectiveConfig(config) && this.catalog == catalog && this.handler == handler
      ensures cache == EmptyCache && Valid()
      ensures fresh(monitor)
      ensures monitor.functionUsageHistory == [] && monitor.decisionQualityData == []
      ensures monitor.prefabRelevanceHistory == [] && monitor.decisionImpactHistory == []
    {
      this.config := EffectiveConfig(config);
      this.catalog := catalog;
      this.handler := handler;
      monitor := new PrefabPerformanceMonitor();
      cache := EmptyCache;
    }

    /** `_detect_race` on an observation. */
    method DetectRace(units: seq<UnitObs>) returns (race: string)
      ensures race == ManagerDetectedRace(FriendlyUnits(units))
    {
      var friendly := FriendlyUnits(units);
      if friendly == [] {
        return "unknown";
      }
      var i := 0;
      while i < |friendly|
        invariant 0 <= i <= |friendly|
        invariant ManagerDetectedRace(friendly) == ManagerDetectedRace(friendly[i..])
      {
        var r := ManagerUnitRace(friendly[i].unitName);
        if r != "" {
          return r;
        }
        assert friendly[i..][1..] == friendly[i + 1..];
        i := i + 1;
      }
      race := "unknown";
    }

    /** The race the lookup uses: the given one when non-empty, else the detected one. */
    function RaceUsed(units: seq<UnitObs>, race: Option<string>): string
    {
      if race.Some? && race.value != "" then race.value else ManagerDetectedRace(FriendlyUnits(units))
    }

    /** The handler's ranking of the relevant functions for an observation. */
    function Ranked(units: seq<UnitObs>, race: Option<string>): (r: seq<Scored<PrefabFunction>>)
      requires AllNamed(catalog.all)
      reads this, handler
      ensures forall i :: 0 <= i < |r| ==> Named(r[i].item)
    {
      var g := ManagerGameState(FriendlyUnits(units), EnemyUnits(units));
      RetrievedNamed(catalog, g, RaceUsed(units, race));
      var scored := ScoredList(Retrieved(catalog, g, RaceUsed(units, race)), handler.Context(units));
      SortedStaysNamed(scored);
      SortDesc(scored)
    }

    /** The usage records the handler writes while selecting from the ranking. */
    function SelectionUsage(units: seq<UnitObs>, topK: Option<int>, race: Option<string>): seq<UsageRecord>
      requires AllNamed(catalog.all)
      reads this, handler
    {
      var ranked := Ranked(units, race);
      SortedStaysNamed(ranked);
      UsageRecords(SortDesc(ranked), OptimalFor(units, topK, race),
                   Some(ManagerGameState(FriendlyUnits(units), EnemyUnits(units))))
    }

    /** The answer `get_optimal_functions` computes on a cache miss. */
    function OptimalFor(units: seq<UnitObs>, topK: Option<int>, race: Option<string>): seq<PrefabFunction>
      requires AllNamed(catalog.all)
      reads this, handler
    {
      Optimal(Ranked(units, race), if topK.Some? then topK.value else config.topK)
    }

    /**
     * `get_optimal_functions`. A cached key returns the stored list and
     * changes nothing. Otherwise the handler scores and selects, the monitor
     * (when enabled) records each selected function, and the answer is
     * cached; caching raises `StopIteration` exactly when `cache_size <= 0`.
     */
    method GetOptimalFunctions(units: seq<UnitObs>, topK: Option<int>, race: Option<string>)
      returns (r: Result<seq<PrefabFunction>>)
      requires Valid() && AllNamed(catalog.all)
      modifies this, handler.monitor, monitor
      ensures Valid() && catalog == old(catalog)
      ensures CacheKey(units, race) in old(cache.entries) ==>
        r == Ok(old(cache.entries)[CacheKey(units, race)]) && cache == old(cache) &&
        unchanged(monitor) && unchanged(handler.monitor)
      ensures CacheKey(units, race) !in old(cache.entries) ==>
        (r.Ok? <==> config.cacheSize > 0) &&
        (r.Ok? ==> r.value == OptimalFor(units, topK, race)) &&
        (r.Ok? ==> Some(cache) == CacheResult(old(cache), CacheKey(units, race), r.value, config.cacheSize)) &&
        (r.Err? ==> cache == old(cache))
      ensures CacheKey(units, race) !in old(cache.entries) ==>
        monitor.functionUsageHistory == old(monitor.functionUsageHistory) +
          (if config.enableMonitor then ManagerUsageRecords(OptimalFor(units, topK, race)) else [])
      ensures CacheKey(units, race) !in old(cache.entries) ==>
        handler.monitor.functionUsageHistory == old(handler.monitor.functionUsageHistory) +
          SelectionUsage(units, topK, race)
    {
      var key := CacheKey(units, race);
      if key in cache.entries {
        return Ok(cache.entries[key]);
      }
      var optimal := ComputeOptimal(units, topK, race);
      var stored := CacheResult(cache, key, optimal, config.cacheSize);
      CacheBounded(cache, key, optimal, config.cacheSize);
      if stored.None? {
        return Err("StopIteration");
      }
      cache := stored.value;
      return Ok(optimal);
    }

    /** The cache-miss path of `get_optimal_functions`, up to caching. */
    method ComputeOptimal(units: seq<UnitObs>, topK: Option<int>, race: Option<string>)
      returns (optimal: seq<PrefabFunction>)
      requires monitor != handler.monitor && AllNamed(catalog.all)
      modifies handler.monitor, monitor
      ensures optimal == OptimalFor(units, topK, race)
      ensures monitor.functionUsageHistory == old(monitor.functionUsageHistory) +
        (if config.enableMonitor then ManagerUsageRecords(optimal) else [])
      ensures handler.monitor.functionUsageHistory == old(handler.monitor.functionUsageHistory) +
        SelectionUsage(units, topK, race)
    {
      var k := if topK.Some? then topK.value else config.topK;
      var g, scored := RankFor(units, race);
      optimal := handler.SelectOptimalFunctions(scored, k, Some(g));
      if config.enableMonitor {
        RecordSelected(optimal);
      }
    }

    /**
     * The game state of an observation and the handler's ranking of the
     * functions retrieved for it, under the given race or else the detected one.
     */
    method RankFor(units: seq<UnitObs>, race: Option<string>) returns (g: GameState, scored: seq<Scored<PrefabFunction>>)
      requires AllNamed(catalog.all)
      ensures g == ManagerGameState(FriendlyUnits(units), EnemyUnits(units))
      ensures scored == Ranked(units, race)
    {
      g := AnalyzeObservation(FriendlyUnits(units), EnemyUnits(units));
      var raceUsed: string;
      if race.Some? && race.value != "" {
        raceUsed := race.value;
      } else {
        raceUsed := DetectRace(units);
      }
      var relevant := RetrieveRelevantFunctions(catalog, g, raceUsed);
      RetrievedNamed(catalog, g, raceUsed);
      scored := handler.ScoreFunctions(relevant, units);
    }

    /** The manager's own usage records for the selected functions. */
    method RecordSelected(optimal: seq<PrefabFunction>)
      modifies monitor
      ensures monitor.functionUsageHistory == old(monitor.functionUsageHistory) + ManagerUsageRecords(optimal)
      ensures monitor.decisionQualityData == old(monitor.decisionQualityData)
      ensures monitor.prefabRelevanceHistory == old(monitor.prefabRelevanceHistory)
      ensures monitor.decisionImpactHistory == old(monitor.decisionImpactHistory)
    {
      ghost var usage0 := monitor.functionUsageHistory;
      var i := 0;
      while i < |optimal|
        invariant 0 <= i <= |optimal|
        invariant monitor.functionUsageHistory == usage0 + ManagerUsageRecords(optimal[..i])
        invariant monitor.decisionQualityData == old(monitor.decisionQualityData)
        invariant monitor.prefabRelevanceHistory == old(monitor.prefabRelevanceHistory)
        invariant monitor.decisionImpactHistory == old(monitor.decisionImpactHistory)
      {
        var f := optimal[i];
        monitor.RecordFunctionUsage(StrOr(f.functionId, "unknown"), StrOr(f.name, "unknown"), -1, true,
                                    RealOr(f.confidence, 0.0), 0.0);
        assert optimal[..i + 1][..i] == optimal[..i];
        i := i + 1;
      }
      assert optimal[..i] == optimal;
    }

    /**
     * `update_function_score`: updates the first function with that id in
     * place; `raised` when the running mean divides by zero. The race and
     * type lists and the cached answers hold the same dictionaries as the
     * catalog, so every copy of the updated entry there changes with it.
     */
    method UpdateFunctionScore(id: string, success: bool) returns (raised: bool)
      requires Valid()
      modifies this
      ensures Valid()
      ensures FindById(old(catalog.all), id).None? ==> catalog == old(catalog) && cache == old(cache) && !raised
      ensures FindById(old(catalog.all), id).Some? ==>
        var i := FindById(old(catalog.all), id).value;
        var f := old(catalog.all)[i];
        var g := ScoreUpdated(f, success);
        catalog == Catalog(old(catalog.all)[i := g], Touched(old(catalog.byRace), f, g), Touched(old(catalog.byType), f, g)) &&
        cache == old(cache).(entries := Touched(old(cache.entries), f, g)) &&
        raised == ScoreUpdateRaises(f)
    {
      var found := FindById(catalog.all, id);
      if found.None? {
        return false;
      }
      var i := found.value;
      var f := catalog.all[i];
      var g := ScoreUpdated(f, success);
      raised := ScoreUpdateRaises(f);
      catalog := Catalog(catalog.all[i := g], Touched(catalog.byRace, f, g), Touched(catalog.byType, f, g));
      cache := cache.(entries := Touched(cache.entries, f, g));
    }

    /** `clear_cache`. */
    method ClearCache()
      requires Valid()
      modifies this
      ensures Valid() && cache == EmptyCache && catalog == old(catalog)
    {
      cache := EmptyCache;
    }
  }
}
