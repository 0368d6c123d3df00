/**
 * The prefab-function handler: retrieval of candidate functions for the units
 * on the field, hard filters and scoring, top-k selection, the cooldown table
 * and execution history, and the feedback that adjusts a function's confidence.
 */
module Handler {
  import opened Common
  import opened PrefabRecord
  import opened PerformanceMonitor

  // ================================================================ units

  /** One entry of `observation['unit_info']`, with the keys the handler reads. */
  datatype UnitObs = UnitObs(unitName: string, alliance: int, health: real, maxHealth: real, energy: real)

  /** `unit_name.split('_')[0]`: the unit type without its numeric suffix. */
  function BaseType(name: string): string
  {
    BeforeFirst(name, '_')
  }

  /** `s.split('_')[-1] if '_' in s else s`. */
  function LastSegment(s: string): string
  {
    if '_' in s then (var parts := Split(s, '_'); parts[|parts| - 1]) else s
  }

  /** `[u for u in units if u['alliance'] == 1]`. */
  function FriendlyUnits(us: seq<UnitObs>): (r: seq<UnitObs>)
    ensures forall i :: 0 <= i < |r| ==> r[i].alliance == 1 && r[i] in us
    ensures forall i :: 0 <= i < |us| && us[i].alliance == 1 ==> us[i] in r
  {
    if us == [] then []
    else (if us[0].alliance == 1 then [us[0]] else []) + FriendlyUnits(us[1..])
  }

  /** `[u for u in units if u['alliance'] != 1]`. */
  function EnemyUnits(us: seq<UnitObs>): (r: seq<UnitObs>)
    ensures forall i :: 0 <= i < |r| ==> r[i].alliance != 1 && r[i] in us
    ensures forall i :: 0 <= i < |us| && us[i].alliance != 1 ==> us[i] in r
  {
    if us == [] then []
    else (if us[0].alliance != 1 then [us[0]] else []) + EnemyUnits(us[1..])
  }

  /** Every observed unit is either friendly or enemy, and never both. */
  lemma {:induction false} UnitsPartition(us: seq<UnitObs>)
    ensures |FriendlyUnits(us)| + |EnemyUnits(us)| == |us|
  {
    if us != [] {
      UnitsPartition(us[1..]);
    }
  }

  // ================================================================ game state

  /** The dictionary key a unit is counted under: its base type, or its full name. */
  function TypeKey(u: UnitObs, detailed: bool): string
  {
    if detailed then u.unitName else BaseType(u.unitName)
  }

  /** The `{type: count}` dictionary the analysis loop builds, keys in first-seen order. */
  function TypesOf(us: seq<UnitObs>, detailed: bool): TypeCounts
    decreases |us|
  {
    if us == [] then [] else Bump(TypesOf(us[..|us| - 1], detailed), TypeKey(us[|us| - 1], detailed))
  }

  /** The number of units counted under key `t`. */
  function UnitsOfType(us: seq<UnitObs>, t: string, detailed: bool): nat
    decreases |us|
  {
    if us == [] then 0
    else UnitsOfType(us[..|us| - 1], t, detailed) + (if TypeKey(us[|us| - 1], detailed) == t then 1 else 0)
  }

  /**
   * The counts sum to the number of units, the keys are distinct and there
   * are no more of them than units, and each key counts exactly its units.
   */
  lemma {:induction false} TypesOfCounts(us: seq<UnitObs>, detailed: bool, t: string)
    ensures SumCounts(TypesOf(us, detailed)) == |us|
    ensures DistinctKeys(TypesOf(us, detailed))
    ensures |TypesOf(us, detailed)| <= |us|
    ensures CountOf(TypesOf(us, detailed), t) == UnitsOfType(us, t, detailed)
    ensures HasKey(TypesOf(us, detailed), t) <==> UnitsOfType(us, t, detailed) > 0
  {
    if us != [] {
      var init := us[..|us| - 1];
      var k := TypeKey(us[|us| - 1], detailed);
      TypesOfCounts(init, detailed, t);
      BumpDistinct(TypesOf(init, detailed), k);
      BumpCount(TypesOf(init, detailed), k, t);
      BumpHasKey(TypesOf(init, detailed), k, t);
    }
  }

  predicate AnyMedivac(us: seq<UnitObs>)
  {
    exists i :: 0 <= i < |us| && Contains(us[i].unitName, "Medivac")
  }

  predicate AnyLowHealth(us: seq<UnitObs>)
  {
    exists i :: 0 <= i < |us| && us[i].health < us[i].maxHealth * 0.5
  }

  predicate AnyEnergyAbove(us: seq<UnitObs>, threshold: real)
  {
    exists i :: 0 <= i < |us| && us[i].energy > threshold
  }

  /** `len(friendly_unit_types) / friendly_count if friendly_count > 0 else 0`. */
  function Diversity(types: TypeCounts, count: nat): real
  {
    if count > 0 then (|types| as real) / (count as real) else 0.0
  }

  /** What `_analyze_game_state` returns for the friendly and enemy units. */
  function GameStateOf(friendly: seq<UnitObs>, enemy: seq<UnitObs>): GameState
  {
    var types := TypesOf(friendly, false);
    GameState(|friendly|, |enemy|, types, TypesOf(enemy, false), TypesOf(friendly, true), TypesOf(enemy, true),
              AnyMedivac(friendly), AnyLowHealth(friendly), AnyEnergyAbove(friendly, 0.0),
              AnyEnergyAbove(friendly, 50.0), Diversity(types, |friendly|), None)
  }

  lemma DiversityBounds(types: TypeCounts, count: nat)
    requires 1 <= |types| <= count
    ensures 0.0 < Diversity(types, count) <= 1.0
  {
    var a, b := |types| as real, count as real;
    assert a / b * b == a;
  }

  /**
   * The per-type counts sum to the unit counts, each type counts exactly its
   * units, and the type diversity lies in (0, 1] when there is a friendly
   * unit and is 0 otherwise.
   */
  lemma GameStateCounts(friendly: seq<UnitObs>, enemy: seq<UnitObs>, t: string)
    ensures SumCounts(GameStateOf(friendly, enemy).friendlyTypes) == GameStateOf(friendly, enemy).friendlyCount
    ensures SumCounts(GameStateOf(friendly, enemy).enemyTypes) == GameStateOf(friendly, enemy).enemyCount
    ensures CountOf(GameStateOf(friendly, enemy).friendlyTypes, t) == UnitsOfType(friendly, t, false)
    ensures friendly != [] ==> 0.0 < GameStateOf(friendly, enemy).unitTypeDiversity <= 1.0
    ensures friendly == [] ==> GameStateOf(friendly, enemy).unitTypeDiversity == 0.0
  {
    TypesOfCounts(friendly, false, t);
    TypesOfCounts(enemy, false, t);
    if friendly != [] {
      var k := BaseType(friendly[|friendly| - 1].unitName);
      TypesOfCounts(friendly, false, k);
      assert friendly[..|friendly| - 1] + [friendly[|friendly| - 1]] == friendly;
      assert UnitsOfType(friendly, k, false) > 0;
      DiversityBounds(TypesOf(friendly, false), |friendly|);
    }
  }

  /** Of an observation, the friendly and enemy counts add up to the number of units. */
  lemma ObservationCounts(units: seq<UnitObs>)
    ensures var g := GameStateOf(FriendlyUnits(units), EnemyUnits(units));
      g.friendlyCount + g.enemyCount == |units|
  {
    UnitsPartition(units);
  }

  /** `_analyze_game_state`: counts every unit under its base type and its full name. */
  method AnalyzeGameState(friendly: seq<UnitObs>, enemy: seq<UnitObs>) returns (g: GameState)
    ensures g == GameStateOf(friendly, enemy)
  {
    var ft, fd := CountTypes(friendly);
    var et, ed := CountTypes(enemy);
    g := GameState(|friendly|, |enemy|, ft, et, fd, ed,
                   AnyMedivac(friendly), AnyLowHealth(friendly), AnyEnergyAbove(friendly, 0.0),
                   AnyEnergyAbove(friendly, 50.0), Diversity(ft, |friendly|), None);
  }

  /** One side's counting loop: by base type and by full name. */
  method CountTypes(units: seq<UnitObs>) returns (base: TypeCounts, detailed: TypeCounts)
    ensures base == TypesOf(units, false) && detailed == TypesOf(units, true)
  {
    base, detailed := [], [];
    var i := 0;
    while i < |units|
      invariant 0 <= i <= |units|
      invariant base == TypesOf(units[..i], false) && detailed == TypesOf(units[..i], true)
    {
      assert units[..i + 1][..i] == units[..i];
      base := Bump(base, BaseType(units[i].unitName));
      detailed := Bump(detailed, units[i].unitName);
      i := i + 1;
    }
    assert units[..i] == units;
  }

  // ================================================================ race detection

  const ProtossKeywords: seq<string> :=
    ["zealot", "stalker", "phoenix", "immortal", "archon", "sentry", "hightemplar", "darktemplar",
     "colossus", "observer", "warp prism", "carrier", "tempest", "void ray", "protoss"]
  const TerranKeywords: seq<string> :=
    ["marine", "marauder", "reaper", "ghost", "hellbat", "siegetank", "thor", "medivac", "viking",
     "banshee", "raven", "battlecruiser", "liberator", "terran"]
  const ZergKeywords: seq<string> :=
    ["zergling", "baneling", "roach", "ravager", "hydralisk", "lurker", "mutalisk", "corruptor",
     "viper", "ultralisk", "infestor", "swarm host", "brood lord", "queen", "drone", "overlord", "zerg"]

  /** `any(k in s for k in keys)`. */
  predicate AnyIn(s: string, keys: seq<string>)
  {
    exists i :: 0 <= i < |keys| && Contains(s, keys[i])
  }

  /** The race one unit name reveals (protoss keywords first, then terran, then zerg), or "". */
  function UnitRace(name: string): (r: string)
    ensures r == "" || r == "protoss" || r == "terran" || r == "zerg"
  {
    var n := Lower(name);
    if AnyIn(n, ProtossKeywords) then "protoss"
    else if AnyIn(n, TerranKeywords) then "terran"
    else if AnyIn(n, ZergKeywords) then "zerg"
    else ""
  }

  /** The fallback: the default race when one is set (non-empty), else "unknown". */
  function RaceOrDefault(defaultRace: string): (r: string)
    ensures r != ""
  {
    if defaultRace != "" then defaultRace else "unknown"
  }

  /** `_detect_race`: the race of the first unit that reveals one, else the fallback. */
  function DetectedRace(units: seq<UnitObs>, defaultRace: string): string
  {
    if units == [] then RaceOrDefault(defaultRace)
    else if UnitRace(units[0].unitName) != "" then UnitRace(units[0].unitName)
    else DetectedRace(units[1..], defaultRace)
  }

  /**
   * The detected race is never empty; it is the race of the first unit that
   * reveals one, and the fallback exactly when no unit reveals a race.
   */
  lemma {:induction false} DetectedRaceFirst(units: seq<UnitObs>, defaultRace: string)
    ensures DetectedRace(units, defaultRace) != ""
    ensures (forall i :: 0 <= i < |units| ==> UnitRace(units[i].unitName) == "") ==>
      DetectedRace(units, defaultRace) == RaceOrDefault(defaultRace)
    ensures (exists i :: 0 <= i < |units| && UnitRace(units[i].unitName) != "") ==>
      exists i :: 0 <= i < |units| && DetectedRace(units, defaultRace) == UnitRace(units[i].unitName) != "" &&
        forall j :: 0 <= j < i ==> UnitRace(units[j].unitName) == ""
  {
    if units != [] {
      DetectedRaceFirst(units[1..], defaultRace);
      if UnitRace(units[0].unitName) == "" {
        if exists i :: 0 <= i < |units| && UnitRace(units[i].unitName) != "" {
          var i :| 0 <= i < |units| && UnitRace(units[i].unitName) != "";
          assert UnitRace(units[1..][i - 1].unitName) != "";
          var k :| 0 <= k < |units[1..]| && DetectedRace(units[1..], defaultRace) == UnitRace(units[1..][k].unitName) != "" &&
            forall j :: 0 <= j < k ==> UnitRace(units[1..][j].unitName) == "";
          assert forall j :: 0 <= j < k + 1 ==> UnitRace(units[j].unitName) == "" by {
            forall j | 0 <= j < k + 1 ensures UnitRace(units[j].unitName) == "" {
              if j > 0 { assert units[j] == units[1..][j - 1]; }
            }
          }
          assert DetectedRace(units, defaultRace) == UnitRace(units[k + 1].unitName);
        }
      }
    }
  }

  // ================================================================ retrieval

  /** The three unit queries: the full name, its base type, and capitalised base + base. */
  function UnitQueries(name: string): seq<string>
  {
    var base := BaseType(name);
    [name, base, Capitalize(base) + base]
  }

  /** What the manager's `search_functions(unit=q)` returns for the three queries of one unit. */
  function QueryResults(name: string, search: string -> seq<PrefabFunction>): seq<PrefabFunction>
  {
    var q := UnitQueries(name);
    search(q[0]) + search(q[1]) + search(q[2])
  }

  /** The unit-driven candidates, unit by unit. */
  function UnitCandidates(friendly: seq<UnitObs>, search: string -> seq<PrefabFunction>): seq<PrefabFunction>
    decreases |friendly|
  {
    if friendly == [] then []
    else UnitCandidates(friendly[..|friendly| - 1], search) + QueryResults(friendly[|friendly| - 1].unitName, search)
  }

  /** `friendly_unit_types`: the set of base types of the friendly units. */
  function BaseTypes(friendly: seq<UnitObs>): set<string>
  {
    set i | 0 <= i < |friendly| :: BaseType(friendly[i].unitName)
  }

  predicate IsCoordination(f: PrefabFunction)
  {
    var tc := StrOr(f.tacticCategory, "");
    tc == "heterogeneous_coordination" || tc == "formation_control_coordination"
  }

  /** A coordination function whose `prerequisites.required_units` are all friendly base types. */
  predicate CoordinationReady(f: PrefabFunction, types: set<string>)
  {
    IsCoordination(f) && f.prereqUnits.Some? &&
    forall i :: 0 <= i < |f.prereqUnits.value| ==> f.prereqUnits.value[i] in types
  }

  /** The coordination functions of the whole library that the units can perform, in library order. */
  function CoordinationCandidates(all: seq<PrefabFunction>, types: set<string>): seq<PrefabFunction>
    decreases |all|
  {
    if all == [] then []
    else
      var init := all[..|all| - 1];
      CoordinationCandidates(init, types) + (if CoordinationReady(all[|all| - 1], types) then [all[|all| - 1]] else [])
  }

  /** A function is a coordination candidate exactly when it is in the library and ready. */
  lemma {:induction false} CoordinationCandidatesExact(all: seq<PrefabFunction>, types: set<string>, f: PrefabFunction)
    ensures f in CoordinationCandidates(all, types) <==> f in all && CoordinationReady(f, types)
    decreases |all|
  {
    if all != [] {
      var init := all[..|all| - 1];
      var last := all[|all| - 1];
      CoordinationCandidatesExact(init, types, f);
      assert all == init + [last];
    }
  }

  /** Every candidate of `retrieve_relevant_functions`, before deduplication. */
  function Candidates(friendly: seq<UnitObs>, search: string -> seq<PrefabFunction>, all: seq<PrefabFunction>): seq<PrefabFunction>
  {
    UnitCandidates(friendly, search) + CoordinationCandidates(all, BaseTypes(friendly))
  }

  /** The ids of the functions that carry one. */
  function Ids(fs: seq<PrefabFunction>): set<string>
  {
    set i | 0 <= i < |fs| && fs[i].functionId.Some? :: fs[i].functionId.value
  }

  lemma IdsAppend(fs: seq<PrefabFunction>, f: PrefabFunction)
    requires f.functionId.Some?
    ensures Ids(fs + [f]) == Ids(fs) + {f.functionId.value}
  {
    var o := fs + [f];
    forall x | x in Ids(o) ensures x in Ids(fs) + {f.functionId.value} {
      var m :| 0 <= m < |o| && o[m].functionId.Some? && o[m].functionId.value == x;
      if m < |fs| { assert o[m] == fs[m]; }
    }
    forall x | x in Ids(fs) ensures x in Ids(o) {
      var m :| 0 <= m < |fs| && fs[m].functionId.Some? && fs[m].functionId.value == x;
      assert o[m] == fs[m];
    }
    assert o[|fs|] == f;
  }

  predicate AllIded(fs: seq<PrefabFunction>)
  {
    forall i :: 0 <= i < |fs| ==> fs[i].functionId.Some?
  }

  /**
   * The deduplication loop: keeps a function when its id has not been seen;
   * `func['function_id']` raises on a function without one.
   */
  function Dedupe(fs: seq<PrefabFunction>): Result<seq<PrefabFunction>>
    decreases |fs|
  {
    if fs == [] then Ok([])
    else
      var prev := Dedupe(fs[..|fs| - 1]);
      var f := fs[|fs| - 1];
      if prev.Err? then prev
      else if f.functionId.None? then Err("KeyError: 'function_id'")
      else if f.functionId.value in Ids(prev.value) then prev
      else Ok(prev.value + [f])
  }

  /** `fs[i]` is the first function carrying its id. */
  predicate FirstOfId(fs: seq<PrefabFunction>, i: nat)
    requires i < |fs|
  {
    forall j :: 0 <= j < i ==> fs[j].functionId != fs[i].functionId
  }

  /** Reference definition: the first occurrence of every id among `fs[..n]`, in order. */
  function FirstOccurrences(fs: seq<PrefabFunction>, n: nat): seq<PrefabFunction>
    requires n <= |fs|
  {
    if n == 0 then [] else FirstOccurrences(fs, n - 1) + (if FirstOfId(fs, n - 1) then [fs[n - 1]] else [])
  }

  lemma {:induction false} DedupePrefix(fs: seq<PrefabFunction>, n: nat)
    requires n <= |fs| && AllIded(fs)
    ensures Dedupe(fs[..n]) == Ok(FirstOccurrences(fs, n))
    ensures Ids(FirstOccurrences(fs, n)) == Ids(fs[..n])
  {
    if n > 0 {
      DedupePrefix(fs, n - 1);
      var p := fs[..n - 1];
      var q := fs[..n];
      assert q[..|q| - 1] == p && q[|q| - 1] == fs[n - 1];
      var id := fs[n - 1].functionId.value;
      var out := FirstOccurrences(fs, n - 1);
      assert FirstOfId(fs, n - 1) <==> id !in Ids(p) by {
        if id in Ids(p) {
          var j :| 0 <= j < |p| && p[j].functionId.Some? && p[j].functionId.value == id;
          assert fs[j].functionId == fs[n - 1].functionId;
        }
        if !FirstOfId(fs, n - 1) {
          var j :| 0 <= j < n - 1 && fs[j].functionId == fs[n - 1].functionId;
          assert p[j] == fs[j];
        }
      }
      assert fs[..n] == p + [fs[n - 1]];
      IdsAppend(p, fs[n - 1]);
      assert Dedupe(q) == (if id in Ids(out) then Ok(out) else Ok(out + [fs[n - 1]]));
      if FirstOfId(fs, n - 1) {
        IdsAppend(out, fs[n - 1]);
      } else {
        assert out + [] == out;
        assert FirstOccurrences(fs, n) == out;
      }
    }
  }

  /**
   * Deduplication fails exactly when a candidate has no id; otherwise it keeps
   * the first occurrence of every id, in the order of the candidates.
   */
  lemma DedupeKeepsFirstOccurrences(fs: seq<PrefabFunction>)
    ensures Dedupe(fs).Err? <==> !AllIded(fs)
    ensures AllIded(fs) ==> Dedupe(fs) == Ok(FirstOccurrences(fs, |fs|))
    ensures AllIded(fs) ==> Ids(FirstOccurrences(fs, |fs|)) == Ids(fs)
  {
    if AllIded(fs) {
      DedupePrefix(fs, |fs|);
      assert fs[..|fs|] == fs;
    } else {
      DedupeFailsWithoutId(fs);
    }
  }

  lemma {:induction false} DedupeFailsWithoutId(fs: seq<PrefabFunction>)
    requires !AllIded(fs)
    ensures Dedupe(fs).Err?
    decreases |fs|
  {
    var init := fs[..|fs| - 1];
    if !AllIded(init) {
      DedupeFailsWithoutId(init);
    } else {
      assert fs[|fs| - 1].functionId.None?;
    }
  }

  /** The functions kept carry pairwise distinct ids, and every one of them is a candidate. */
  lemma {:induction false} DedupeUnique(fs: seq<PrefabFunction>)
    requires Dedupe(fs).Ok?
    ensures var r := Dedupe(fs).value;
      AllIded(r) &&
      (forall i, j :: 0 <= i < j < |r| ==> r[i].functionId != r[j].functionId) &&
      (forall i :: 0 <= i < |r| ==> r[i] in fs)
    decreases |fs|
  {
    if fs != [] {
      var init := fs[..|fs| - 1];
      DedupeUnique(init);
      var prev := Dedupe(init).value;
      var f := fs[|fs| - 1];
      if f.functionId.value !in Ids(prev) {
        var r := prev + [f];
        forall i, j | 0 <= i < j < |r| ensures r[i].functionId != r[j].functionId {
          if j == |prev| {
            assert r[i] == prev[i];
            assert prev[i].functionId.value in Ids(prev);
          }
        }
      }
    }
  }

  /** An error in a prefix is the error of the whole list. */
  lemma {:induction false} DedupeErrSticks(fs: seq<PrefabFunction>, k: nat)
    requires k <= |fs| && Dedupe(fs[..k]).Err?
    ensures Dedupe(fs) == Dedupe(fs[..k])
    decreases |fs| - k
  {
    if k < |fs| {
      assert fs[..k + 1][..k] == fs[..k];
      DedupeErrSticks(fs, k + 1);
    } else {
      assert fs[..k] == fs;
    }
  }

  /** The loop collecting `friendly_unit_types`. */
  method CollectBaseTypes(friendly: seq<UnitObs>) returns (types: set<string>)
    ensures types == BaseTypes(friendly)
  {
    types := {};
    var i := 0;
    while i < |friendly|
      invariant 0 <= i <= |friendly|
      invariant types == BaseTypes(friendly[..i])
    {
      assert BaseTypes(friendly[..i + 1]) == BaseTypes(friendly[..i]) + {BaseType(friendly[i].unitName)} by {
        assert friendly[..i + 1] == friendly[..i] + [friendly[i]];
      }
      types := types + {BaseType(friendly[i].unitName)};
      i := i + 1;
    }
    assert friendly[..i] == friendly;
  }

  lemma UnitCandidatesStep(friendly: seq<UnitObs>, i: nat, search: string -> seq<PrefabFunction>)
    requires i < |friendly|
    ensures var name := friendly[i].unitName; var base := BaseType(name);
      UnitCandidates(friendly[..i + 1], search) ==
      UnitCandidates(friendly[..i], search) + search(name) + search(base) + search(Capitalize(base) + base)
  {
    assert friendly[..i + 1][..i] == friendly[..i];
  }

  /** The loop issuing the three unit queries for every friendly unit. */
  method SearchByUnits(friendly: seq<UnitObs>, search: string -> seq<PrefabFunction>) returns (found: seq<PrefabFunction>)
    ensures found == UnitCandidates(friendly, search)
  {
    found := [];
    var i := 0;
    while i < |friendly|
      invariant 0 <= i <= |friendly|
      invariant found == UnitCandidates(friendly[..i], search)
    {
      UnitCandidatesStep(friendly, i, search);
      var name := friendly[i].unitName;
      var base := BaseType(name);
      found := found + search(name) + search(base) + search(Capitalize(base) + base);
      i := i + 1;
    }
    assert friendly[..i] == friendly;
  }

  /** The loop over the whole library picking the coordination functions the units can perform. */
  method CoordinationFunctions(all: seq<PrefabFunction>, types: set<string>) returns (found: seq<PrefabFunction>)
    ensures found == CoordinationCandidates(all, types)
  {
    found := [];
    var j := 0;
    while j < |all|
      invariant 0 <= j <= |all|
      invariant found == CoordinationCandidates(all[..j], types)
    {
      assert all[..j + 1][..j] == all[..j];
      if CoordinationReady(all[j], types) {
        found := found + [all[j]];
      }
      j := j + 1;
    }
    assert all[..j] == all;
  }

  /** The deduplication loop of `retrieve_relevant_functions`. */
  method DedupeById(candidates: seq<PrefabFunction>) returns (r: Result<seq<PrefabFunction>>)
    ensures r == Dedupe(candidates)
  {
    var seen: set<string> := {};
    var unique: seq<PrefabFunction> := [];
    var k := 0;
    while k < |candidates|
      invariant 0 <= k <= |candidates|
      invariant Dedupe(candidates[..k]) == Ok(unique) && seen == Ids(unique)
    {
      assert candidates[..k + 1][..k] == candidates[..k];
      var f := candidates[k];
      if f.functionId.None? {
        DedupeErrSticks(candidates, k + 1);
        return Err("KeyError: 'function_id'");
      }
      if f.functionId.value !in seen {
        IdsAppend(unique, f);
        seen := seen + {f.functionId.value};
        unique := unique + [f];
      }
      k := k + 1;
    }
    assert candidates[..k] == candidates;
    r := Ok(unique);
  }

  // ================================================================ scoring

  /** A function the scoring code can read: `func['function_id']` and `func['name']` both exist. */
  predicate Named(f: PrefabFunction)
  {
    f.functionId.Some? && f.name.Some?
  }

  predicate AllNamed(fs: seq<PrefabFunction>)
  {
    forall i :: 0 <= i < |fs| ==> Named(fs[i])
  }

  const PureMoveKeywords: seq<string> := ["move", "move_to_position", "position_move", "navigate"]
  const AllowedMoveKeywords: seq<string> := ["push", "retreat", "advance", "withdraw", "flank", "mm_push"]
  const GenericSources: seq<string> :=
    ["all_friendly", "all_ground_friendly", "friendly_infantry", "all_mechanical", "all_infantry"]
  const GenericTargets: seq<string> :=
    ["high_value_enemy_unit", "high_value_terran_unit", "nearest_enemy", "nearest_enemy_unit",
     "highest_threat_enemy", "lowest_health_enemy", "armored_enemy", "light_enemy",
     "lowest_health_friendly", "all_enemy", "closest_enemy"]
  const RacePrefixes: seq<string> := ["Terran", "Protoss", "Zerg"]

  /**
   * `str(func.get('execution_flow', ''))`: Python's display of a list of
   * strings, simplified to single quotes without escaping.  Python switches to
   * double quotes for a string holding a single quote and escapes backslashes;
   * the substring tests this text feeds (`move_to_position`, `move(`, race
   * names) contain neither character, so they see the same answer.
   */
  function FlowText(f: PrefabFunction): string
  {
    if f.executionFlow.None? then ""
    else "[" + Join(", ", seq(|f.executionFlow.value|, i requires 0 <= i < |f.executionFlow.value| =>
                               "'" + f.executionFlow.value[i] + "'")) + "]"
  }

  /**
   * The "without move" filter: a function is a pure move when its name asks
   * for a plain move and no tactical one, or its flow issues a move and the
   * name is not an mm_push; medivac and heal functions are never pure moves.
   */
  predicate IsPureMove(f: PrefabFunction)
    requires Named(f)
  {
    var n := Lower(f.name.value);
    if Contains(n, "medivac") || Contains(n, "heal_") then false
    else
      var flow := Lower(FlowText(f));
      (AnyIn(n, PureMoveKeywords) && !AnyIn(n, AllowedMoveKeywords)) ||
      ((Contains(flow, "move_to_position") || Contains(flow, "move(")) && !Contains(n, "mm_push"))
  }

  /** `next(race for race in ['terran', 'protoss', 'zerg'] if race in s)`, or "" when none occurs. */
  function FirstRaceIn(s: string): (r: string)
    ensures r == "" || r == "terran" || r == "protoss" || r == "zerg"
    ensures r != "" ==> Contains(s, r)
  {
    if Contains(s, "terran") then "terran"
    else if Contains(s, "protoss") then "protoss"
    else if Contains(s, "zerg") then "zerg"
    else ""
  }

  /** The race a function declares: from its id, then its name, source unit, target unit and flow. */
  function FunctionRace(f: PrefabFunction): (r: string)
    requires Named(f)
    ensures r == "" || r == "terran" || r == "protoss" || r == "zerg"
  {
    var idUp := Upper(f.functionId.value);
    if Contains(idUp, "TERRAN") then "terran"
    else if Contains(idUp, "PROTOSS") then "protoss"
    else if Contains(idUp, "ZERG") then "zerg"
    else if FirstRaceIn(Lower(f.name.value)) != "" then FirstRaceIn(Lower(f.name.value))
    else if f.sourceUnit.Some? && FirstRaceIn(Lower(f.sourceUnit.value)) != "" then FirstRaceIn(Lower(f.sourceUnit.value))
    else if f.targetUnit.Some? && FirstRaceIn(Lower(f.targetUnit.value)) != "" then FirstRaceIn(Lower(f.targetUnit.value))
    else FirstRaceIn(Lower(FlowText(f)))
  }

  /** A function declaring a race other than the current one is skipped. */
  predicate RaceMismatch(f: PrefabFunction, race: string)
    requires Named(f)
  {
    race != "" && FunctionRace(f) != "" && FunctionRace(f) != Lower(race)
  }

  /** Some unit's lower-cased name contains `needle`. */
  predicate AnyNameHas(us: seq<UnitObs>, needle: string)
  {
    exists i :: 0 <= i < |us| && Contains(Lower(us[i].unitName), needle)
  }

  /** Some unit's name contains `needle`, case-sensitively. */
  predicate AnyNameHasExact(us: seq<UnitObs>, needle: string)
  {
    exists i :: 0 <= i < |us| && Contains(us[i].unitName, needle)
  }

  /** The retry with a race prefix (Terran, Protoss, Zerg) removed from `base`. */
  predicate PrefixStrippedHit(base: string, us: seq<UnitObs>)
  {
    exists i :: 0 <= i < |RacePrefixes| && IsPrefix(RacePrefixes[i], base) &&
      AnyNameHas(us, Lower(base[|RacePrefixes[i]|..]))
  }

  /**
   * The three name checks shared by the source-unit and required-unit tests:
   * the last `_` segment, the same with a race prefix removed (only for
   * segments longer than five characters), and the whole name.
   */
  predicate NameMatched(unit: string, us: seq<UnitObs>)
  {
    var base := LastSegment(unit);
    AnyNameHas(us, Lower(base)) || (|base| > 5 && PrefixStrippedHit(base, us)) || AnyNameHas(us, Lower(unit))
  }

  predicate SourceAvailable(f: PrefabFunction, friendly: seq<UnitObs>)
  {
    f.sourceUnit.None? || f.sourceUnit.value in GenericSources || NameMatched(f.sourceUnit.value, friendly)
  }

  /** The target check has no whole-name retry. */
  predicate TargetAvailable(f: PrefabFunction, enemy: seq<UnitObs>)
  {
    f.targetUnit.None? || f.targetUnit.value in GenericTargets ||
    (var base := LastSegment(f.targetUnit.value);
     AnyNameHas(enemy, Lower(base)) || (|base| > 5 && PrefixStrippedHit(base, enemy)))
  }

  /**
   * The fourth required-unit check: the segment equals some unit's base type,
   * ignoring case (splitting the last segment at `_` again leaves it unchanged).
   */
  predicate BaseTypeHit(base: string, us: seq<UnitObs>)
  {
    exists i :: 0 <= i < |us| && Lower(base) == Lower(BaseType(us[i].unitName))
  }

  predicate UnitAvailable(unit: string, friendly: seq<UnitObs>)
  {
    unit in GenericSources || NameMatched(unit, friendly) || BaseTypeHit(LastSegment(unit), friendly)
  }

  /** `prerequisites.required_units` followed by `units`. */
  function RequiredList(f: PrefabFunction): seq<string>
  {
    ListOr(f.prereqUnits) + ListOr(f.units)
  }

  predicate AllUnitsAvailable(f: PrefabFunction, friendly: seq<UnitObs>)
  {
    forall i :: 0 <= i < |RequiredList(f)| ==> UnitAvailable(RequiredList(f)[i], friendly)
  }

  predicate IsCombination(f: PrefabFunction)
  {
    StrOr(f.functionType, "") == "combination" || StrOr(f.linkageType, "") == "combination"
  }

  /** A combination with a missing unit is skipped, and so is any other function with one. */
  predicate UnitsRejected(f: PrefabFunction, friendly: seq<UnitObs>)
  {
    if IsCombination(f) then !AllUnitsAvailable(f, friendly)
    else RequiredList(f) != [] && !AllUnitsAvailable(f, friendly)
  }

  /** Everything `score_functions` reads besides the function itself. */
  datatype ScoreContext = ScoreContext(
    friendly: seq<UnitObs>, enemy: seq<UnitObs>, state: GameState, race: string,
    history: seq<string>, cooldowns: map<string, int>, results: seq<ExecutionResult>)

  /** The hard filters: a function meeting any of them gets no score at all. */
  predicate Filtered(f: PrefabFunction, c: ScoreContext)
    requires Named(f)
  {
    IsPureMove(f) || RaceMismatch(f, c.race) || !SourceAvailable(f, c.friendly) ||
    !TargetAvailable(f, c.enemy) || UnitsRejected(f, c.friendly)
  }

  function ConfidenceScore(f: PrefabFunction): real
  {
    if f.confidence.Some? then f.confidence.value * 5.0 else 0.0
  }

  /** The `target_` bonus: 8 with both units on the field, 4 with only the source. */
  function TargetingBonus(f: PrefabFunction, c: ScoreContext): real
  {
    if f.sourceUnit.Some? && f.targetUnit.Some? then
      var hasSource := AnyNameHasExact(c.friendly, LastSegment(f.sourceUnit.value));
      var hasTarget := AnyNameHasExact(c.enemy, LastSegment(f.targetUnit.value));
      if hasSource && hasTarget then 8.0 else if hasSource then 4.0 else 0.0
    else 0.0
  }

  function TerranBonus(name: string, g: GameState): real
  {
    var marines := CountOf(g.friendlyTypes, "Marine");
    var marauders := CountOf(g.friendlyTypes, "Marauder");
    if Contains(name, "mm_push") then
      (if marines >= 3 && marauders >= 1 then 10.0
       else if marines >= 2 && marauders >= 1 then 6.0
       else if marines >= 2 then 3.0
       else 0.0)
    else if Contains(name, "LoadMedivac") || Contains(name, "UnloadMedivac") then
      (if g.hasMedivac then 5.0 + (if g.hasLowHealthUnits then 3.0 else 0.0) else 0.0)
    else if Contains(name, "heal_") || Contains(Lower(name), "medivac") then
      (if !g.hasMedivac then 0.0
       else if Contains(Lower(name), "follow") || Contains(Lower(name), "stay") then 12.0
       else if g.hasLowHealthUnits then 10.0
       else 7.0)
    else if Contains(name, "Stim") then
      (if marines > 3 || marauders > 2 then 7.0 else 0.0)
    else if Contains(name, "Siege") || Contains(name, "Unsiege") then
      (if CountOf(g.friendlyTypes, "SiegeTank") > 0 then 8.0 else 0.0)
    else 0.0
  }

  function ProtossBonus(name: string, g: GameState): real
  {
    if Contains(name, "Warp") || Contains(name, "WarpIn") then
      (if CountOf(g.friendlyTypes, "WarpPrism") > 0 then 8.0 else 0.0)
    else if Contains(name, "Shield") || Contains(name, "GuardianShield") then
      (if CountOf(g.friendlyTypes, "Sentry") > 0 then 7.0 else 0.0)
    else if Contains(name, "Psionic") || Contains(name, "Storm") then
      (if CountOf(g.friendlyTypes, "HighTemplar") > 0 then 9.0 else 0.0)
    else 0.0
  }

  function ZergBonus(name: string, g: GameState): real
  {
    if Contains(name, "Creep") || Contains(name, "SpreadCreep") then
      (if CountOf(g.friendlyTypes, "Queen") > 0 then 7.0 else 0.0)
    else if Contains(name, "Inject") || Contains(name, "Larva") then
      (if CountOf(g.friendlyTypes, "Queen") > 0 then 8.0 else 0.0)
    else if Contains(name, "Swarm") || Contains(name, "Spawn") then
      (if g.friendlyCount > 5 then 6.0 else 0.0)
    else 0.0
  }

  /** The name-and-state bonus, by race. */
  function NameBonus(f: PrefabFunction, c: ScoreContext): real
    requires Named(f)
  {
    var name := f.name.value;
    var g := c.state;
    if Contains(name, "target_") then TargetingBonus(f, c)
    else if c.race == "terran" then TerranBonus(name, g)
    else if c.race == "protoss" then ProtossBonus(name, g)
    else if c.race == "zerg" then ZergBonus(name, g)
    else if Contains(name, "Attack") || Contains(name, "FocusFire") then
      (if g.enemyCount > g.friendlyCount then 6.0 else 0.0)
    else if Contains(name, "Move") || Contains(name, "Retreat") then
      (if g.friendlyCount < g.enemyCount then 6.0 else 0.0)
    else 0.0
  }

  function TacticBonus(f: PrefabFunction, g: GameState): real
  {
    var tc := StrOr(f.tacticCategory, "");
    if tc == "targeting" then 3.0
    else if tc == "offense" && g.friendlyCount > g.enemyCount then 4.0
    else if tc == "defense" && g.friendlyCount < g.enemyCount then 4.0
    else if tc == "support" && g.hasLowHealthUnits then 5.0
    else if tc == "heterogeneous_coordination" then 8.0 + (if |g.friendlyTypes| >= 4 then 2.0 else 0.0)
    else if tc == "formation_control_coordination" then 6.0
    else 0.0
  }

  /** +3 for a combination (whose units are all present), +2 for an interaction. */
  function KindBonus(f: PrefabFunction): real
  {
    if IsCombination(f) then 3.0
    else if StrOr(f.functionType, "") == "interaction" then 2.0
    else 0.0
  }

  function Pow(x: real, n: nat): real
  {
    if n == 0 then 1.0 else x * Pow(x, n - 1)
  }

  lemma {:induction false} PowBounds(x: real, n: nat)
    requires 0.0 < x <= 1.0
    ensures 0.0 < Pow(x, n) <= 1.0
  {
    if n > 0 {
      PowBounds(x, n - 1);
      ScaleBound(Pow(x, n - 1), x);
      assert x * Pow(x, n - 1) > 0.0;
    }
  }

  /** Scaling a non-negative value by a factor in [0, 1] keeps it between 0 and itself. */
  lemma ScaleBound(a: real, k: real)
    requires a >= 0.0 && 0.0 <= k <= 1.0
    ensures 0.0 <= a * k <= a
  {
    assert a * k <= a * 1.0;
  }

  /** 0.95 per use among the last five executions. */
  function DiversityFactor(history: seq<string>, id: string): real
  {
    var uses := Count(LastN(history, 5), id);
    if uses > 0 then Pow(0.95, uses) else 1.0
  }

  lemma DiversityInUnit(history: seq<string>, id: string)
    ensures 0.0 < DiversityFactor(history, id) <= 1.0
  {
    PowBounds(0.95, Count(LastN(history, 5), id));
  }

  /** The cooldown factor as the handler computes it: `0.8 + cooldown / 10`. */
  function CooldownFactorAsWritten(cooldown: int): real
  {
    0.8 + (cooldown as real) / 10.0
  }

  /** The cooldown factor as its comment describes it: a penalty of 0.1 per remaining step. */
  function CooldownFactor(cooldown: int): real
  {
    1.0 - (cooldown as real) / 10.0
  }

  /** With the handler's factor, a function three or more steps into its cooldown gains score. */
  lemma CooldownAsWrittenRewards(cooldown: int)
    requires cooldown >= 3
    ensures CooldownFactorAsWritten(cooldown) > 1.0
    ensures CooldownFactorAsWritten(cooldown) > CooldownFactorAsWritten(cooldown - 1)
  {
  }

  /** The intended factor is a penalty, and a longer remaining cooldown is a larger one. */
  lemma CooldownFactorPenalises(cooldown: int, shorter: int)
    requires 0 < shorter < cooldown <= 10
    ensures 0.0 <= CooldownFactor(cooldown) < CooldownFactor(shorter) < 1.0
  {
  }

  function CooldownMultiplier(cooldowns: map<string, int>, id: string): real
  {
    if id in cooldowns && cooldowns[id] > 0 then CooldownFactorAsWritten(cooldowns[id]) else 1.0
  }

  /** The results recorded for one function, in order. */
  function ResultsFor(rs: seq<ExecutionResult>, id: string): (r: seq<ExecutionResult>)
    ensures forall i :: 0 <= i < |r| ==> r[i].funcId == id && r[i] in rs
    ensures (exists i :: 0 <= i < |rs| && rs[i].funcId == id) <==> r != []
    decreases |rs|
  {
    if rs == [] then []
    else
      var init := rs[..|rs| - 1];
      ResultsFor(init, id) + (if rs[|rs| - 1].funcId == id then [rs[|rs| - 1]] else [])
  }

  function Successes(rs: seq<ExecutionResult>): (n: nat)
    ensures n <= |rs|
  {
    if rs == [] then 0 else (if rs[0].success then 1 else 0) + Successes(rs[1..])
  }

  /**
   * `0.5 + rate * 0.5` over the function's last five results, or 1 when it has
   * none (the membership test and the emptiness test coincide).
   */
  function FeedbackFactor(rs: seq<ExecutionResult>, id: string): (r: real)
    ensures 0.5 <= r <= 1.0
  {
    var recent := LastN(ResultsFor(rs, id), 5);
    if recent == [] then 1.0
    else
      var rate := (Successes(recent) as real) / (|recent| as real);
      assert 0.0 <= rate <= 1.0 by { RatioInUnit(Successes(recent), |recent|); }
      0.5 + rate * 0.5
  }

  lemma RatioInUnit(k: nat, n: nat)
    requires 0 < n && k <= n
    ensures 0.0 <= (k as real) / (n as real) <= 1.0
  {
  }

  /**
   * A score times three factors; with the first and last in [0, 1], a
   * non-negative score ends up between 0 and the score times the middle one.
   */
  function Multiplied(s: real, d: real, k: real, r: real): (p: real)
    ensures s >= 0.0 && 0.0 <= d <= 1.0 && k >= 0.0 && 0.0 <= r <= 1.0 ==> 0.0 <= p <= s * k
  {
    var p := s * d * k * r;
    assert s >= 0.0 && 0.0 <= d <= 1.0 && k >= 0.0 && 0.0 <= r <= 1.0 ==> 0.0 <= p <= s * k by {
      if s >= 0.0 && 0.0 <= d <= 1.0 && k >= 0.0 && 0.0 <= r <= 1.0 {
        ProductBound(s, d, k, r);
      }
    }
    p
  }

  /** The three multipliers: recent use, cooldown and past results. */
  function Penalised(score: real, id: string, c: ScoreContext): real
  {
    Multiplied(score, DiversityFactor(c.history, id), CooldownMultiplier(c.cooldowns, id), FeedbackFactor(c.results, id))
  }

  function BaseScore(f: PrefabFunction, c: ScoreContext): real
    requires Named(f)
  {
    ConfidenceScore(f) + NameBonus(f, c) + TacticBonus(f, c.state) + KindBonus(f)
  }

  /** The score of one function, or `None` when a hard filter skips it. */
  function ScoreOf(f: PrefabFunction, c: ScoreContext): Option<real>
    requires Named(f)
  {
    if Filtered(f, c) then None else Some(Penalised(BaseScore(f, c), f.functionId.value, c))
  }

  /** The scored functions in input order, before sorting. */
  function ScoredList(fs: seq<PrefabFunction>, c: ScoreContext): (r: seq<Scored<PrefabFunction>>)
    requires AllNamed(fs)
    ensures forall i :: 0 <= i < |r| ==> r[i].item in fs && Named(r[i].item) && ScoreOf(r[i].item, c) == Some(r[i].score)
    decreases |fs|
  {
    if fs == [] then []
    else
      var init := fs[..|fs| - 1];
      var f := fs[|fs| - 1];
      assert AllNamed(init);
      var prev := ScoredList(init, c);
      match ScoreOf(f, c)
      case None => prev
      case Some(s) => prev + [Scored(f, s)]
  }

  lemma ScoredListStep(fs: seq<PrefabFunction>, i: nat, c: ScoreContext)
    requires i < |fs| && AllNamed(fs)
    ensures AllNamed(fs[..i]) && AllNamed(fs[..i + 1])
    ensures ScoredList(fs[..i + 1], c) ==
      ScoredList(fs[..i], c) + (if ScoreOf(fs[i], c).Some? then [Scored(fs[i], ScoreOf(fs[i], c).value)] else [])
  {
    assert fs[..i + 1][..i] == fs[..i];
  }

  /** The scoring loop of `score_functions`, before the sort. */
  method ScoreAll(fs: seq<PrefabFunction>, c: ScoreContext) returns (list: seq<Scored<PrefabFunction>>)
    requires AllNamed(fs)
    ensures list == ScoredList(fs, c)
  {
    list := [];
    var i := 0;
    while i < |fs|
      invariant 0 <= i <= |fs|
      invariant AllNamed(fs[..i])
      invariant list == ScoredList(fs[..i], c)
    {
      ScoredListStep(fs, i, c);
      var s := ScoreOf(fs[i], c);
      if s.Some? {
        list := list + [Scored(fs[i], s.value)];
      }
      i := i + 1;
    }
    assert fs[..i] == fs;
  }

  /** Every function that passes the filters is scored. */
  lemma {:induction false} ScoredListCovers(fs: seq<PrefabFunction>, c: ScoreContext, i: nat)
    requires AllNamed(fs) && i < |fs| && ScoreOf(fs[i], c).Some?
    ensures Scored(fs[i], ScoreOf(fs[i], c).value) in ScoredList(fs, c)
    decreases |fs|
  {
    var init := fs[..|fs| - 1];
    assert AllNamed(init);
    if i < |fs| - 1 {
      assert fs[i] == init[i];
      ScoredListCovers(init, c, i);
    }
  }

  /** Cooldowns as the handler keeps them: between one and four remaining steps. */
  predicate CooldownsBounded(cooldowns: map<string, int>)
  {
    forall k :: k in cooldowns ==> 1 <= cooldowns[k] <= 4
  }

  /**
   * Bounds on the three multipliers when the cooldowns are bounded: the
   * diversity one in (0, 1], the feedback one in [0.5, 1], and the cooldown
   * one 1 when the function is not cooling down and otherwise between 0.9
   * and 1.2, so above 1 for three or more remaining steps.
   */
  lemma FactorBounds(id: string, c: ScoreContext)
    requires CooldownsBounded(c.cooldowns)
    ensures 0.0 < DiversityFactor(c.history, id) <= 1.0
    ensures id !in c.cooldowns ==> CooldownMultiplier(c.cooldowns, id) == 1.0
    ensures id in c.cooldowns ==> 0.9 <= CooldownMultiplier(c.cooldowns, id) <= 1.2
    ensures id in c.cooldowns && c.cooldowns[id] >= 3 ==> CooldownMultiplier(c.cooldowns, id) > 1.0
    ensures 0.5 <= FeedbackFactor(c.results, id) <= 1.0
  {
    PowBounds(0.95, Count(LastN(c.history, 5), id));
  }

  /**
   * The multipliers never make a non-negative score negative and never raise
   * it beyond the cooldown multiplier: a function not cooling down never
   * gains, one cooling down gains at most what its factor (at most 1.2) gives.
   */
  lemma PenaltiesBounded(score: real, id: string, c: ScoreContext)
    requires score >= 0.0 && CooldownsBounded(c.cooldowns)
    ensures 0.0 <= Penalised(score, id, c) <= score * CooldownMultiplier(c.cooldowns, id)
    ensures id !in c.cooldowns ==> Penalised(score, id, c) <= score
  {
    var d, k, r := DiversityFactor(c.history, id), CooldownMultiplier(c.cooldowns, id), FeedbackFactor(c.results, id);
    DiversityInUnit(c.history, id);
    assert k >= 0.0;
    ScaledBound(score, d, k, r);
    assert Penalised(score, id, c) == Multiplied(score, d, k, r);
  }

  lemma ScaledBound(s: real, d: real, k: real, r: real)
    requires s >= 0.0 && 0.0 <= d <= 1.0 && k >= 0.0 && 0.0 <= r <= 1.0
    ensures 0.0 <= Multiplied(s, d, k, r) <= s * k
    ensures k == 1.0 ==> s * k == s
  {
  }

  lemma ProductBound(s: real, d: real, k: real, r: real)
    requires s >= 0.0 && 0.0 <= d <= 1.0 && k >= 0.0 && 0.0 <= r <= 1.0
    ensures 0.0 <= s * d * k * r <= s * k
  {
    ScaleBound(s, d);
    MulMono(s * d, s, k);
    ScaleBound(s * d * k, r);
  }

  lemma MulMono(x: real, y: real, k: real)
    requires 0.0 <= x <= y && k >= 0.0
    ensures 0.0 <= x * k <= y * k
  {
    assert (y - x) * k >= 0.0;
  }

  lemma MulLess(x: real, y: real, r: real)
    requires x < y && r > 0.0
    ensures x * r < y * r
  {
    assert (y - x) * r > 0.0;
  }

  /**
   * Against the score it would have without the cooldown, a cooling-down
   * function's positive score is lower with one remaining step, unchanged
   * with two and higher with three or more.
   */
  lemma CooldownEffect(score: real, id: string, c: ScoreContext)
    requires score > 0.0 && id in c.cooldowns && c.cooldowns[id] > 0
    ensures var free := Penalised(score, id, c.(cooldowns := c.cooldowns - {id}));
            free > 0.0
            && (c.cooldowns[id] == 1 ==> Penalised(score, id, c) < free)
            && (c.cooldowns[id] == 2 ==> Penalised(score, id, c) == free)
            && (c.cooldowns[id] >= 3 ==> Penalised(score, id, c) > free)
  {
    var c' := c.(cooldowns := c.cooldowns - {id});
    var d := DiversityFactor(c.history, id);
    var r := FeedbackFactor(c.results, id);
    var cd := c.cooldowns[id];
    DiversityInUnit(c.history, id);
    assert Penalised(score, id, c) == Multiplied(score, d, CooldownFactorAsWritten(cd), r);
    assert Penalised(score, id, c') == Multiplied(score, d, 1.0, r);
    CooldownScaled(score, d, r, cd);
  }

  /** The handler's factor scales the product without it, and is below, at or above 1 for 1, 2 and 3+ steps. */
  lemma CooldownScaled(s: real, d: real, r: real, cd: int)
    requires s > 0.0 && d > 0.0 && r > 0.0
    ensures var free := Multiplied(s, d, 1.0, r);
            var p := Multiplied(s, d, CooldownFactorAsWritten(cd), r);
            free > 0.0 && p == free * CooldownFactorAsWritten(cd)
            && (cd == 1 ==> p < free) && (cd == 2 ==> p == free) && (cd >= 3 ==> p > free)
  {
    var k := CooldownFactorAsWritten(cd);
    ScaledByFactor(s, d, k, r);
    assert cd == 1 ==> k < 1.0;
    assert cd == 2 ==> k == 1.0;
    assert cd >= 3 ==> k > 1.0;
  }

  /** Moving the middle factor out: the product is the product without it, times it. */
  lemma ScaledByFactor(s: real, d: real, k: real, r: real)
    requires s > 0.0 && d > 0.0 && r > 0.0
    ensures var free := Multiplied(s, d, 1.0, r);
            free > 0.0 && Multiplied(s, d, k, r) == free * k
            && (k < 1.0 ==> Multiplied(s, d, k, r) < free)
            && (k == 1.0 ==> Multiplied(s, d, k, r) == free)
            && (k > 1.0 ==> Multiplied(s, d, k, r) > free)
  {
    var sd := s * d;
    assert sd > 0.0;
    var free := sd * r;
    assert free > 0.0;
    assert Multiplied(s, d, 1.0, r) == free;
    assert Multiplied(s, d, k, r) == free * k by {
      assert s * d * k * r == sd * k * r == sd * r * k;
    }
    CompareScaled(free, k);
  }

  lemma CompareScaled(x: real, k: real)
    requires x > 0.0
    ensures k < 1.0 ==> x * k < x
    ensures k == 1.0 ==> x * k == x
    ensures k > 1.0 ==> x * k > x
  {
    if k < 1.0 {
      assert x * (1.0 - k) > 0.0;
    } else if k > 1.0 {
      assert x * (k - 1.0) > 0.0;
    }
  }

  /**
   * `score_functions` returns the unfiltered functions with their scores,
   * sorted by score descending, each exactly once.
   */
  lemma ScoreFunctionsRanked(fs: seq<PrefabFunction>, c: ScoreContext)
    requires AllNamed(fs)
    ensures var r := SortDesc(ScoredList(fs, c));
      SortedDesc(r) && multiset(r) == multiset(ScoredList(fs, c)) &&
      (forall i :: 0 <= i < |r| ==> r[i].item in fs && Named(r[i].item) && ScoreOf(r[i].item, c) == Some(r[i].score)) &&
      (forall i :: 0 <= i < |fs| && !Filtered(fs[i], c) ==> Scored(fs[i], ScoreOf(fs[i], c).value) in r)
  {
    var s := ScoredList(fs, c);
    var r := SortDesc(s);
    SortDescCorrect(s);
    forall i | 0 <= i < |r|
      ensures r[i].item in fs && Named(r[i].item) && ScoreOf(r[i].item, c) == Some(r[i].score)
    {
      assert r[i] in multiset(s);
    }
    forall i | 0 <= i < |fs| && !Filtered(fs[i], c)
      ensures Scored(fs[i], ScoreOf(fs[i], c).value) in r
    {
      ScoredListCovers(fs, c, i);
      assert Scored(fs[i], ScoreOf(fs[i], c).value) in multiset(r);
    }
  }

  /** A filtered function never appears in the ranking: it is excluded, not penalised. */
  lemma FilteredExcluded(fs: seq<PrefabFunction>, c: ScoreContext, f: PrefabFunction)
    requires AllNamed(fs) && Named(f) && Filtered(f, c)
    ensures forall e :: e in SortDesc(ScoredList(fs, c)) ==> e.item != f
  {
    ScoreFunctionsRanked(fs, c);
    var r := SortDesc(ScoredList(fs, c));
    forall e | e in r ensures e.item != f {
      var i :| 0 <= i < |r| && r[i] == e;
    }
  }

  /** A combination function with any required unit missing from the field is excluded. */
  lemma CombinationNeedsAllUnits(fs: seq<PrefabFunction>, c: ScoreContext, f: PrefabFunction, k: nat)
    requires AllNamed(fs) && Named(f) && IsCombination(f)
    requires k < |RequiredList(f)| && !UnitAvailable(RequiredList(f)[k], c.friendly)
    ensures forall e :: e in SortDesc(ScoredList(fs, c)) ==> e.item != f
  {
    assert UnitsRejected(f, c.friendly);
    FilteredExcluded(fs, c, f);
  }

  // ================================================================ selection

  function PositiveEntries(es: seq<Scored<PrefabFunction>>): (r: seq<Scored<PrefabFunction>>)
    ensures forall i :: 0 <= i < |r| ==> r[i].score > 0.0 && r[i] in es
    ensures forall i :: 0 <= i < |es| && es[i].score > 0.0 ==> es[i] in r
    ensures |r| <= |es|
    decreases |es|
  {
    if es == [] then []
    else
      var init := es[..|es| - 1];
      PositiveEntries(init) + (if es[|es| - 1].score > 0.0 then [es[|es| - 1]] else [])
  }

  /** The entries `select_optimal_functions` keeps: the first `top_k` of the ranking with a positive score. */
  function SelectedEntries(scored: seq<Scored<PrefabFunction>>, topK: int): seq<Scored<PrefabFunction>>
  {
    PositiveEntries(SliceTo(SortDesc(scored), topK))
  }

  function Items(es: seq<Scored<PrefabFunction>>): (r: seq<PrefabFunction>)
    ensures |r| == |es|
    ensures forall i :: 0 <= i < |es| ==> r[i] == es[i].item
  {
    seq(|es|, i requires 0 <= i < |es| => es[i].item)
  }

  function Optimal(scored: seq<Scored<PrefabFunction>>, topK: int): seq<PrefabFunction>
  {
    Items(SelectedEntries(scored, topK))
  }

  lemma {:induction false} PositiveEntriesSorted(es: seq<Scored<PrefabFunction>>)
    requires SortedDesc(es)
    ensures SortedDesc(PositiveEntries(es))
    decreases |es|
  {
    if es != [] {
      var init := es[..|es| - 1];
      PositiveEntriesSorted(init);
      var p := PositiveEntries(init);
      if es[|es| - 1].score > 0.0 {
        var r := p + [es[|es| - 1]];
        forall i, j | 0 <= i < j < |r| ensures r[i].score >= r[j].score {
          if j == |p| {
            assert r[i] in init;
          }
        }
      }
    }
  }

  /**
   * At most `top_k` functions are selected, all with a positive score and in
   * descending score order, and each comes from the input.
   */
  lemma SelectionBounds(scored: seq<Scored<PrefabFunction>>, topK: int)
    ensures var sel := SelectedEntries(scored, topK);
      (topK >= 0 ==> |sel| <= topK) && |sel| <= |scored| && SortedDesc(sel) &&
      (forall i :: 0 <= i < |sel| ==> sel[i].score > 0.0 && sel[i] in scored)
  {
    var r := SortDesc(scored);
    SortDescCorrect(scored);
    var pre := SliceTo(r, topK);
    var sel := PositiveEntries(pre);
    assert SortedDesc(pre) by {
      assert pre == r[..|pre|];
    }
    PositiveEntriesSorted(pre);
    forall i | 0 <= i < |sel| ensures sel[i] in scored {
      assert sel[i] in pre;
      assert sel[i] in multiset(r);
    }
  }

  /** An input entry with a positive score that is left out scores no higher than any selected one. */
  lemma SelectionDominates(scored: seq<Scored<PrefabFunction>>, topK: int, x: Scored<PrefabFunction>)
    requires topK >= 0 && x in scored && x.score > 0.0
    ensures var sel := SelectedEntries(scored, topK);
      x !in sel ==> forall i :: 0 <= i < |sel| ==> sel[i].score >= x.score
  {
    var r := SortDesc(scored);
    var pre := SliceTo(r, topK);
    var sel := PositiveEntries(pre);
    TopKDominates(scored, topK, x);
    assert pre == r[..if topK < |r| then topK else |r|];
    if x !in sel {
      forall i | 0 <= i < |sel| ensures sel[i].score >= x.score {
        var j :| 0 <= j < |pre| && pre[j] == sel[i];
      }
    }
  }

  lemma SortedStaysNamed(scored: seq<Scored<PrefabFunction>>)
    requires forall i :: 0 <= i < |scored| ==> Named(scored[i].item)
    ensures forall i :: 0 <= i < |SortDesc(scored)| ==> Named(SortDesc(scored)[i].item)
  {
    var sorted := SortDesc(scored);
    SortDescCorrect(scored);
    forall i | 0 <= i < |sorted| ensures Named(sorted[i].item) {
      assert sorted[i] in multiset(scored);
    }
  }

  /** The usage record written for one ranked function. */
  function UsageRecordFor(e: Scored<PrefabFunction>, optimal: seq<PrefabFunction>, g: Option<GameState>): UsageRecord
    requires Named(e.item)
  {
    var f := e.item;
    UsageRecord(f.functionId.value, f.name.value, -1, f in optimal, RealOr(f.confidence, 0.0),
                if g.Some? then FunctionRelevance(f, g.value) else 0.0)
  }

  /** One usage record per ranked function, in ranking order. */
  function UsageRecords(es: seq<Scored<PrefabFunction>>, optimal: seq<PrefabFunction>, g: Option<GameState>): (r: seq<UsageRecord>)
    requires forall i :: 0 <= i < |es| ==> Named(es[i].item)
    ensures |r| == |es|
  {
    seq(|es|, i requires 0 <= i < |es| => UsageRecordFor(es[i], optimal, g))
  }

  /** One relevance record per ranked function when a game state is given, none otherwise. */
  function RelevanceRecords(es: seq<Scored<PrefabFunction>>, g: Option<GameState>): (r: seq<RelevanceRecord>)
    requires forall i :: 0 <= i < |es| ==> Named(es[i].item)
    ensures |r| == (if g.Some? then |es| else 0)
  {
    if g.None? then []
    else seq(|es|, i requires 0 <= i < |es| => RelevanceRecordFor(es[i], g.value))
  }

  function RelevanceRecordFor(e: Scored<PrefabFunction>, g: GameState): RelevanceRecord
    requires Named(e.item)
  {
    RelevanceRecord(e.item.functionId.value, e.item.name.value, -1, FunctionRelevance(e.item, g), g)
  }

  lemma UsageRecordsStep(es: seq<Scored<PrefabFunction>>, k: nat, optimal: seq<PrefabFunction>, g: Option<GameState>)
    requires k < |es| && forall i :: 0 <= i < |es| ==> Named(es[i].item)
    ensures UsageRecords(es[..k + 1], optimal, g) == UsageRecords(es[..k], optimal, g) + [UsageRecordFor(es[k], optimal, g)]
    ensures g.Some? ==> RelevanceRecords(es[..k + 1], g) == RelevanceRecords(es[..k], g) + [RelevanceRecordFor(es[k], g.value)]
    ensures g.None? ==> RelevanceRecords(es[..k + 1], g) == RelevanceRecords(es[..k], g)
  {
    assert UsageRecords(es[..k + 1], optimal, g)[k] == UsageRecordFor(es[k], optimal, g);
    if g.Some? {
      assert RelevanceRecords(es[..k + 1], g)[k] == RelevanceRecordFor(es[k], g.value);
    }
  }

  // ================================================================ relevance

  /** A generic-unit-free, unit-type presence test over dictionary keys: `any(b.lower() in k.lower() ...)`. */
  predicate AnyKeyHas(c: TypeCounts, needle: string)
  {
    exists i :: 0 <= i < |c| && Contains(Lower(c[i].0), needle)
  }

  function UnitRelevance(f: PrefabFunction, g: GameState): real
  {
    (if f.sourceUnit.None? then 0.0
     else if AnyKeyHas(g.friendlyTypes, Lower(LastSegment(f.sourceUnit.value))) then 0.2 else -0.5) +
    (if f.targetUnit.None? || f.targetUnit.value in GenericTargets then 0.0
     else if AnyKeyHas(g.enemyTypes, Lower(LastSegment(f.targetUnit.value))) then 0.2 else -0.5)
  }

  function NameRelevance(name: string, g: GameState): real
  {
    var n := Lower(name);
    var marines := CountOf(g.friendlyTypes, "Marine");
    var marauders := CountOf(g.friendlyTypes, "Marauder");
    if Contains(n, "mm_push") then
      (if marines >= 3 && marauders >= 1 then 0.3 else if marines + marauders >= 4 then 0.2 else 0.0) +
      (if g.enemyCount <= marines + marauders then 0.1 else 0.0)
    else if Contains(n, "heal") || Contains(n, "medivac") then
      (if g.hasMedivac then 0.2 else 0.0) + (if g.hasLowHealthUnits then 0.3 else 0.0) +
      (if g.highEnergyUnits then 0.1 else 0.0)
    else if Contains(n, "stim") then
      (if marines + marauders >= 5 then 0.3 else if marines + marauders >= 3 then 0.2 else 0.0) +
      (if g.enemyCount > 0 then 0.1 else 0.0)
    else if Contains(n, "siege") then
      (if CountOf(g.friendlyTypes, "SiegeTank") > 0
       then 0.3 + (if g.friendlyCount >= g.enemyCount then 0.1 else 0.0)
       else 0.0)
    else if Contains(n, "attack") || Contains(n, "focusfire") then
      (if g.enemyCount > 0 then 0.2 else 0.0) + (if g.friendlyCount > g.enemyCount then 0.2 else 0.0)
    else if Contains(n, "move") || Contains(n, "retreat") then
      (if g.friendlyCount < g.enemyCount then 0.2 else 0.0)
    else 0.0
  }

  function TacticRelevance(tc: string, g: GameState): real
  {
    var fc, ec := g.friendlyCount, g.enemyCount;
    if tc == "offense" then
      (if fc > ec then 0.2 else if fc == ec && g.hasEnergyUnits then 0.1 else 0.0)
    else if tc == "defense" then
      (if fc < ec then 0.2 else if g.hasLowHealthUnits then 0.1 else 0.0)
    else if tc == "support" then
      (if g.hasLowHealthUnits then 0.2 else if g.hasEnergyUnits && fc > 0 then 0.1 else 0.0)
    else if tc == "targeting" then
      (if ec > 0 then 0.2 else 0.0)
    else 0.0
  }

  function StageRelevance(name: string, g: GameState): real
  {
    var n := Lower(name);
    if g.gameStage.None? then 0.0
    else if g.gameStage.value == "early" && Contains(n, "early") then 0.1
    else if g.gameStage.value == "mid" && Contains(n, "mid") then 0.1
    else if g.gameStage.value == "late" && Contains(n, "late") then 0.1
    else 0.0
  }

  /** `_calculate_function_relevance`: the confidence adjusted by the game state, clamped to [0, 1]. */
  function FunctionRelevance(f: PrefabFunction, g: GameState): (r: real)
    requires Named(f)
    ensures 0.0 <= r <= 1.0
  {
    var tc := StrOr(f.tacticCategory, "");
    var raw := RealOr(f.confidence, 0.5) + UnitRelevance(f, g) + NameRelevance(f.name.value, g) +
               TacticRelevance(tc, g) +
               (if g.unitTypeDiversity > 0.5 && tc == "combination" then 0.1 else 0.0) +
               StageRelevance(f.name.value, g);
    Clamp(raw, 0.0, 1.0)
  }

  /** A source unit absent from the field costs 0.5 of relevance against the same function naming no source unit, so it is never more relevant. */
  lemma MissingSourceLowersRelevance(f: PrefabFunction, g: GameState)
    requires Named(f) && f.sourceUnit.Some?
    requires !AnyKeyHas(g.friendlyTypes, Lower(LastSegment(f.sourceUnit.value)))
    ensures UnitRelevance(f, g) == UnitRelevance(f.(sourceUnit := None), g) - 0.5
    ensures FunctionRelevance(f, g) <= FunctionRelevance(f.(sourceUnit := None), g)
  {
  }

  // ================================================================ execution feedback

  /** The `effect_metrics` of one execution. */
  datatype EffectMetrics = EffectMetrics(
    friendlyCountChange: real, enemyCountChange: real, lowHealthUnitsChange: int,
    friendlyHealthChange: real, enemyHealthChange: real, resourceChange: real)

  function MetricsOf(before: StateSample, after: StateSample): EffectMetrics
  {
    EffectMetrics(
      Num(after, "friendly_count") - Num(before, "friendly_count"),
      Num(after, "enemy_count") - Num(before, "enemy_count"),
      FlagBit(after, "has_low_health_units") - FlagBit(before, "has_low_health_units"),
      Num(after, "friendly_health") - Num(before, "friendly_health"),
      Num(after, "enemy_health") - Num(before, "enemy_health"),
      Num(after, "resources") - Num(before, "resources"))
  }

  /** The unclamped quality: 0.5 plus or minus 0.3, then the weighted effect terms. */
  function RawQuality(success: bool, m: EffectMetrics): real
  {
    0.5 + (if success then 0.3 else -0.3) +
    0.2 * ((m.enemyCountChange * -0.5 + m.friendlyCountChange * 0.5) / 10.0) +
    0.2 * ((m.friendlyHealthChange * 0.3 + m.enemyHealthChange * -0.7) / 100.0) +
    0.15 * (-(m.lowHealthUnitsChange as real) * 0.5) +
    0.15 * MinReal(m.resourceChange / 1000.0, 1.0)
  }

  /** `_evaluate_execution_quality`. */
  function ExecutionQuality(success: bool, m: EffectMetrics): (q: real)
    ensures 0.0 <= q <= 1.0
  {
    Clamp(RawQuality(success, m), 0.0, 1.0)
  }

  /**
   * For the same effects a success never rates below a failure, and with no
   * effect at all a success rates 0.8 and a failure 0.2.
   */
  lemma QualityFavoursSuccess(m: EffectMetrics)
    ensures ExecutionQuality(true, m) >= ExecutionQuality(false, m)
    ensures m == EffectMetrics(0.0, 0.0, 0, 0.0, 0.0, 0.0) ==>
      ExecutionQuality(true, m) == 0.8 && ExecutionQuality(false, m) == 0.2
  {
    assert RawQuality(true, m) == RawQuality(false, m) + 0.6;
  }

  /** `_update_function_confidence`'s new value. */
  function NewConfidence(current: real, success: bool, quality: real): real
  {
    if success then MinReal(1.0, current + (0.03 + quality * 0.07))
    else MaxReal(0.1, current - (0.03 + (1.0 - quality) * 0.07))
  }

  /**
   * With a quality in [0, 1], a confidence in [0.1, 1] stays there; a success
   * never lowers it, a failure never raises it, and it moves by at most 0.1.
   */
  lemma NewConfidenceBounds(current: real, success: bool, quality: real)
    requires 0.0 <= quality <= 1.0 && 0.1 <= current <= 1.0
    ensures 0.1 <= NewConfidence(current, success, quality) <= 1.0
    ensures success ==> current <= NewConfidence(current, success, quality) <= current + 0.1
    ensures !success ==> current - 0.1 <= NewConfidence(current, success, quality) <= current
  {
  }

  /** The library after a confidence update: only the named function changes, and only its confidence. */
  function ConfidenceUpdated(library: map<string, PrefabFunction>, id: string, success: bool, quality: real): map<string, PrefabFunction>
  {
    if id in library then
      var f := library[id];
      library[id := f.(confidence := Some(NewConfidence(RealOr(f.confidence, 0.5), success, quality)))]
    else library
  }

  // ================================================================ execution history

  /** An entry of `prefab_execution_results`: from `update_history` or from `record_execution_result`. */
  datatype ExecutionResult =
    | StepResult(funcId: string, funcName: string, step: int, success: bool, actions: ActionCounts)
    | FeedbackResult(funcId: string, success: bool, before: StateSample, after: StateSample,
                     actions: ActionCounts, metrics: EffectMetrics, quality: real)

  /** The cooldown `update_history` sets: 3 for mm_push, 2 for Stim, 4 for Siege, 1 otherwise. */
  function CooldownFor(name: string): (r: int)
    ensures 1 <= r <= 4
  {
    if Contains(name, "mm_push") then 3
    else if Contains(name, "Stim") then 2
    else if Contains(name, "Siege") then 4
    else 1
  }

  /** One `decrement_cooldowns` pass: every entry loses one step and entries reaching zero are dropped. */
  function Decremented(m: map<string, int>): map<string, int>
  {
    map k | k in m && m[k] - 1 > 0 :: m[k] - 1
  }

  function DecrementedTimes(m: map<string, int>, n: nat): map<string, int>
  {
    if n == 0 then m else Decremented(DecrementedTimes(m, n - 1))
  }

  /**
   * A cooldown of `c` steps keeps its function listed, counting down, for
   * exactly `c - 1` further passes and removes it on the `c`-th.
   */
  lemma {:induction false} CooldownExpires(m: map<string, int>, k: string, n: nat)
    requires k in m && m[k] >= 1
    ensures n < m[k] ==> k in DecrementedTimes(m, n) && DecrementedTimes(m, n)[k] == m[k] - n
    ensures n >= m[k] ==> k !in DecrementedTimes(m, n)
  {
    if n > 0 {
      CooldownExpires(m, k, n - 1);
    }
  }

  /** Passes keep cooldowns within the bounds the handler sets. */
  lemma DecrementedBounded(m: map<string, int>)
    requires CooldownsBounded(m)
    ensures CooldownsBounded(Decremented(m))
    ensures forall k :: k in Decremented(m) ==> k in m && Decremented(m)[k] < m[k]
  {
  }

  /** Python's `s[-n:]` for any integer `n`. */
  function PyTail<T>(s: seq<T>, n: int): (r: seq<T>)
    ensures |r| == (if n == 0 || n >= |s| then |s| else if n > 0 then n else if -n >= |s| then 0 else |s| + n)
    ensures r == s[|s| - |r|..]
  {
    if n == 0 then s
    else if n > 0 then (if n >= |s| then s else s[|s| - n..])
    else if -n >= |s| then [] else s[-n..]
  }

  /** The records `get_execution_history` draws from: those of one function, or all of them. */
  function HistoryFor(rs: seq<ExecutionResult>, id: string): seq<ExecutionResult>
  {
    if id != "" then ResultsFor(rs, id) else rs
  }

  /** `get_execution_history` as written: `history[-limit:]`. */
  function ExecutionHistoryAsWritten(rs: seq<ExecutionResult>, id: string, limit: int): seq<ExecutionResult>
  {
    PyTail(HistoryFor(rs, id), limit)
  }

  /**
   * The as-written slice keeps the latest records of the history: the latest
   * `limit` for a positive limit (the intended history), the whole history
   * for 0, and all but the first `-limit` for a negative limit.
   */
  lemma AsWrittenHistoryFacts(rs: seq<ExecutionResult>, id: string, limit: int)
    ensures var h := HistoryFor(rs, id);
            var r := ExecutionHistoryAsWritten(rs, id, limit);
            r == h[|h| - |r|..]
            && (limit > 0 ==> r == ExecutionHistory(rs, id, limit))
            && (limit == 0 ==> r == h)
            && (limit < 0 ==> |r| == (if -limit >= |h| then 0 else |h| + limit))
    ensures var r := ExecutionHistoryAsWritten(rs, id, limit);
            forall i :: 0 <= i < |r| ==> r[i] in rs && (id != "" ==> r[i].funcId == id)
  {
    var h := HistoryFor(rs, id);
    var r := ExecutionHistoryAsWritten(rs, id, limit);
    forall i | 0 <= i < |r| ensures r[i] in rs && (id != "" ==> r[i].funcId == id) {
      assert r[i] == h[|h| - |r| + i];
    }
  }

  /** With a limit of 0, the as-written slice returns the whole history rather than nothing. */
  lemma ZeroLimitReturnsAll(rs: seq<ExecutionResult>)
    requires rs != []
    ensures ExecutionHistoryAsWritten(rs, "", 0) == rs
    ensures |ExecutionHistoryAsWritten(rs, "", 0)| > 0
  {
  }

  /** `get_execution_history` as intended: the most recent `limit` records, none for a limit of 0 or less. */
  function ExecutionHistory(rs: seq<ExecutionResult>, id: string, limit: int): (r: seq<ExecutionResult>)
    ensures var h := HistoryFor(rs, id);
      |r| == (if limit <= 0 then 0 else if limit < |h| then limit else |h|) &&
      r == h[|h| - |r|..]
  {
    var h := HistoryFor(rs, id);
    if limit <= 0 then [] else if limit >= |h| then h else h[|h| - limit..]
  }

  /** Asked for one function, the history holds only that function's records. */
  lemma ExecutionHistoryOfFunction(rs: seq<ExecutionResult>, id: string, limit: int)
    requires id != ""
    ensures var r := ExecutionHistory(rs, id, limit);
      forall i :: 0 <= i < |r| ==> r[i].funcId == id && r[i] in rs
  {
    var h := ResultsFor(rs, id);
    var r := ExecutionHistory(rs, id, limit);
    forall i | 0 <= i < |r| ensures r[i].funcId == id && r[i] in rs {
      assert r[i] == h[|h| - |r| + i];
    }
  }

  /** For a positive limit the intended history agrees with the as-written one. */
  lemma ExecutionHistoryAgrees(rs: seq<ExecutionResult>, id: string, limit: int)
    requires limit > 0
    ensures ExecutionHistory(rs, id, limit) == ExecutionHistoryAsWritten(rs, id, limit)
  {
  }

  // ================================================================ unit-name matching

  /** Drops spaces and underscores. */
  function StripSeparators(s: string): (r: string)
    ensures forall i :: 0 <= i < |r| ==> r[i] != ' ' && r[i] != '_'
  {
    if s == [] then []
    else (if s[0] == ' ' || s[0] == '_' then [] else [s[0]]) + StripSeparators(s[1..])
  }

  function DropDigits(s: string): (r: string)
    ensures forall i :: 0 <= i < |r| ==> !IsDigit(r[i]) && r[i] in s
  {
    if s == [] then [] else (if IsDigit(s[0]) then [] else [s[0]]) + DropDigits(s[1..])
  }

  /** Removes the first race prefix (protoss, terran, zerg) the name starts with. */
  function StripRace(n: string): (r: string)
    ensures forall i :: 0 <= i < |r| ==> r[i] in n
  {
    if IsPrefix("protoss", n) then n[7..]
    else if IsPrefix("terran", n) then n[6..]
    else if IsPrefix("zerg", n) then n[4..]
    else n
  }

  /** The normalisation after separators are gone: lower-case, drop a race prefix, drop digits. */
  function NormalizeStripped(stripped: string): (r: string)
    requires forall i :: 0 <= i < |stripped| ==> stripped[i] != ' ' && stripped[i] != '_'
    ensures forall i :: 0 <= i < |r| ==> !IsDigit(r[i]) && r[i] != ' ' && r[i] != '_' && !('A' <= r[i] <= 'Z')
  {
    var n := Lower(stripped);
    assert forall i :: 0 <= i < |n| ==> n[i] != ' ' && n[i] != '_' && !('A' <= n[i] <= 'Z');
    DropDigits(StripRace(n))
  }

  /** `_normalize_unit_name`. */
  function NormalizeUnitName(name: string): (r: string)
    ensures forall i :: 0 <= i < |r| ==> !IsDigit(r[i]) && r[i] != ' ' && r[i] != '_' && !('A' <= r[i] <= 'Z')
  {
    if name == "" then "" else NormalizeStripped(StripSeparators(name))
  }

  /** `_is_unit_match`: both names given and equal once normalised. */
  predicate IsUnitMatch(required: string, available: string)
  {
    required != "" && available != "" && NormalizeUnitName(required) == NormalizeUnitName(available)
  }

  lemma {:induction false} StripLowerCommute(s: string)
    ensures StripSeparators(Lower(s)) == Lower(StripSeparators(s))
  {
    if s != [] {
      StripLowerCommute(s[1..]);
      assert Lower(s)[1..] == Lower(s[1..]);
      var rest := StripSeparators(s[1..]);
      if s[0] != ' ' && s[0] != '_' {
        assert Lower([s[0]] + rest) == [LowerChar(s[0])] + Lower(rest);
      }
    }
  }

  lemma {:induction false} StripAppend(a: string, b: string)
    ensures StripSeparators(a + b) == StripSeparators(a) + StripSeparators(b)
  {
    if a == [] {
      assert a + b == b;
    } else {
      assert (a + b)[1..] == a[1..] + b;
      assert (a + b)[0] == a[0];
      StripAppend(a[1..], b);
      var h := if a[0] == ' ' || a[0] == '_' then [] else [a[0]];
      assert StripSeparators(a + b) == h + StripSeparators(a[1..] + b);
      assert StripSeparators(a) == h + StripSeparators(a[1..]);
    }
  }

  /** Matching ignores letter case: names equal up to case match the same units. */
  lemma UnitMatchIgnoresCase(a: string, b: string, other: string)
    requires Lower(a) == Lower(b)
    ensures NormalizeUnitName(a) == NormalizeUnitName(b)
    ensures IsUnitMatch(a, other) <==> IsUnitMatch(b, other)
  {
    StripLowerCommute(a);
    StripLowerCommute(b);
    assert |a| == |Lower(a)| == |b|;
  }

  /** Matching ignores spaces and underscores between the parts of a name. */
  lemma UnitMatchIgnoresSeparator(x: string, y: string, sep: char)
    requires sep == ' ' || sep == '_'
    requires x + y != ""
    ensures NormalizeUnitName(x + [sep] + y) == NormalizeUnitName(x + y)
  {
    StripSeparator(x, y, sep);
    assert |x + [sep] + y| > 0;
  }

  lemma StripSeparator(x: string, y: string, sep: char)
    requires sep == ' ' || sep == '_'
    ensures StripSeparators(x + [sep] + y) == StripSeparators(x + y)
  {
    StripAppend(x + [sep], y);
    StripAppend(x, [sep]);
    StripAppend(x, y);
    assert StripSeparators([sep]) == [] by {
      assert [sep][1..] == [];
    }
  }

  // ================================================================ the handler

  class PrefabFunctionHandler {
    /**
     * The functions the manager hands out by id; the manager returns them by
     * reference, so a confidence update edits them in place.
     */
    var library: map<string, PrefabFunction>
    /** `default_race`, with "" for none. */
    const defaultRace: string
    /** `prefab_function_history`: the ids of executed functions. */
    var history: seq<string>
    /** `prefab_function_cooldowns`. */
    var cooldowns: map<string, int>
    /** `prefab_execution_results`. */
    var results: seq<ExecutionResult>
    const monitor: PrefabPerformanceMonitor

    predicate Valid()
      reads this
    {
      CooldownsBounded(cooldowns)
    }

    constructor(library: map<string, PrefabFunction>, defaultRace: string)
      ensures this.library == library && this.defaultRace == defaultRace
      ensures history == [] && cooldowns == map[] && results == []
      ensures fresh(monitor) && Valid()
      ensures monitor.functionUsageHistory == [] && monitor.decisionQualityData == []
      ensures monitor.prefabRelevanceHistory == [] && monitor.decisionImpactHistory == []
    {
      this.library := library;
      this.defaultRace := defaultRace;
      history, cooldowns, results := [], map[], [];
      monitor := new PrefabPerformanceMonitor();
    }

    /** `_detect_race`. */
    method DetectRace(units: seq<UnitObs>) returns (race: string)
      ensures race == DetectedRace(units, defaultRace)
    {
      var i := 0;
      while i < |units|
        invariant 0 <= i <= |units|
        invariant DetectedRace(units, defaultRace) == DetectedRace(units[i..], defaultRace)
      {
        var r := UnitRace(units[i].unitName);
        if r != "" {
          return r;
        }
        assert units[i..][1..] == units[i + 1..];
        i := i + 1;
      }
      race := RaceOrDefault(defaultRace);
    }

    /**
     * `retrieve_relevant_functions`: `search(q)` is the manager's answer to
     * `search_functions(unit=q)` and `all` its `get_all_functions()`.
     */
    method RetrieveRelevantFunctions(units: seq<UnitObs>, search: string -> seq<PrefabFunction>, all: seq<PrefabFunction>)
      returns (r: Result<seq<PrefabFunction>>)
      ensures r == Dedupe(Candidates(FriendlyUnits(units), search, all))
    {
      var friendly := FriendlyUnits(units);
      var types := CollectBaseTypes(friendly);
      var byUnit := SearchByUnits(friendly, search);
      var coordination := CoordinationFunctions(all, types);
      r := DedupeById(byUnit + coordination);
    }

    /** The scoring context `score_functions` builds from an observation and the handler's state. */
    function Context(units: seq<UnitObs>): ScoreContext
      reads this
    {
      var fr, en := FriendlyUnits(units), EnemyUnits(units);
      ScoreContext(fr, en, GameStateOf(fr, en), DetectedRace(fr, defaultRace), history, cooldowns, results)
    }

    /** `score_functions`: scores every function passing the hard filters, best first. */
    method ScoreFunctions(fs: seq<PrefabFunction>, units: seq<UnitObs>) returns (scored: seq<Scored<PrefabFunction>>)
      requires AllNamed(fs)
      ensures scored == SortDesc(ScoredList(fs, Context(units)))
    {
      var friendly, enemy := FriendlyUnits(units), EnemyUnits(units);
      var g := AnalyzeGameState(friendly, enemy);
      var race := DetectRace(friendly);
      var c := ScoreContext(friendly, enemy, g, race, history, cooldowns, results);
      assert c == Context(units);
      var list := ScoreAll(fs, c);
      scored := SortDesc(list);
    }

    /**
     * `select_optimal_functions`: the best `top_k` functions with a positive
     * score; every ranked function is reported to the monitor.
     */
    method SelectOptimalFunctions(scored: seq<Scored<PrefabFunction>>, topK: int, g: Option<GameState>)
      returns (optimal: seq<PrefabFunction>)
      requires forall i :: 0 <= i < |scored| ==> Named(scored[i].item)
      modifies monitor
      ensures optimal == Optimal(scored, topK)
      ensures forall i :: 0 <= i < |SortDesc(scored)| ==> Named(SortDesc(scored)[i].item)
      ensures monitor.functionUsageHistory ==
        old(monitor.functionUsageHistory) + UsageRecords(SortDesc(scored), optimal, g)
      ensures monitor.prefabRelevanceHistory ==
        old(monitor.prefabRelevanceHistory) + RelevanceRecords(SortDesc(scored), g)
      ensures monitor.decisionQualityData == old(monitor.decisionQualityData)
      ensures monitor.decisionImpactHistory == old(monitor.decisionImpactHistory)
    {
      var sorted := SortDesc(scored);
      SortedStaysNamed(scored);
      optimal := Optimal(scored, topK);
      ReportAll(sorted, optimal, g);
    }

    /** The reporting loop of `select_optimal_functions`: one usage record per ranked function. */
    method ReportAll(sorted: seq<Scored<PrefabFunction>>, optimal: seq<PrefabFunction>, g: Option<GameState>)
      requires forall i :: 0 <= i < |sorted| ==> Named(sorted[i].item)
      modifies monitor
      ensures monitor.functionUsageHistory ==
        old(monitor.functionUsageHistory) + UsageRecords(sorted, optimal, g)
      ensures monitor.prefabRelevanceHistory ==
        old(monitor.prefabRelevanceHistory) + RelevanceRecords(sorted, g)
      ensures monitor.decisionQualityData == old(monitor.decisionQualityData)
      ensures monitor.decisionImpactHistory == old(monitor.decisionImpactHistory)
    {
      var i := 0;
      while i < |sorted|
        invariant 0 <= i <= |sorted|
        invariant monitor.functionUsageHistory == old(monitor.functionUsageHistory) + UsageRecords(sorted[..i], optimal, g)
        invariant monitor.prefabRelevanceHistory == old(monitor.prefabRelevanceHistory) + RelevanceRecords(sorted[..i], g)
        invariant monitor.decisionQualityData == old(monitor.decisionQualityData)
        invariant monitor.decisionImpactHistory == old(monitor.decisionImpactHistory)
      {
        ReportEntry(sorted[i], optimal, g);
        UsageRecordsStep(sorted, i, optimal, g);
        i := i + 1;
      }
      assert sorted[..i] == sorted;
    }

    /** One iteration of the reporting loop of `select_optimal_functions`. */
    method ReportEntry(e: Scored<PrefabFunction>, optimal: seq<PrefabFunction>, g: Option<GameState>)
      requires Named(e.item)
      modifies monitor
      ensures monitor.functionUsageHistory == old(monitor.functionUsageHistory) + [UsageRecordFor(e, optimal, g)]
      ensures monitor.prefabRelevanceHistory ==
        old(monitor.prefabRelevanceHistory) + (if g.Some? then [RelevanceRecordFor(e, g.value)] else [])
      ensures monitor.decisionQualityData == old(monitor.decisionQualityData)
      ensures monitor.decisionImpactHistory == old(monitor.decisionImpactHistory)
    {
      var f := e.item;
      var relevance := 0.0;
      if g.Some? {
        relevance := FunctionRelevance(f, g.value);
        monitor.RecordPrefabRelevance(f.functionId.value, f.name.value, -1, relevance, g.value);
      }
      monitor.RecordFunctionUsage(f.functionId.value, f.name.value, -1, f in optimal,
                                  RealOr(f.confidence, 0.0), relevance);
    }

    /** `update_history`: records the execution and starts the function's cooldown. */
    method UpdateHistory(id: string, name: string, actions: ActionCounts, step: int, success: bool)
      requires Valid()
      modifies this
      ensures Valid()
      ensures history == old(history) + [id]
      ensures cooldowns == old(cooldowns)[id := CooldownFor(name)]
      ensures results == old(results) + [StepResult(id, name, step, success, actions)]
      ensures library == old(library)
    {
      history := history + [id];
      cooldowns := cooldowns[id := CooldownFor(name)];
      results := results + [StepResult(id, name, step, success, actions)];
    }

    /** `decrement_cooldowns`. */
    method DecrementCooldowns()
      requires Valid()
      modifies this
      ensures Valid()
      ensures cooldowns == Decremented(old(cooldowns))
      ensures history == old(history) && results == old(results) && library == old(library)
    {
      ghost var c0 := cooldowns;
      var todo := cooldowns.Keys;
      while todo != {}
        invariant todo <= c0.Keys
        invariant forall k :: k in todo ==> k in cooldowns && cooldowns[k] == c0[k]
        invariant forall k :: k in cooldowns ==> k in c0
        invariant forall k :: k in c0 && k !in todo ==>
          (k in cooldowns <==> c0[k] - 1 > 0) && (k in cooldowns ==> cooldowns[k] == c0[k] - 1)
        invariant history == old(history) && results == old(results) && library == old(library)
        decreases todo
      {
        var k :| k in todo;
        var left := cooldowns[k] - 1;
        if left <= 0 {
          cooldowns := map x | x in cooldowns && x != k :: cooldowns[x];
        } else {
          cooldowns := cooldowns[k := left];
        }
        todo := todo - {k};
      }
      DecrementedBounded(c0);
    }

    /** `_update_function_confidence`. */
    method UpdateFunctionConfidence(id: string, success: bool, quality: real)
      modifies this
      ensures library == ConfidenceUpdated(old(library), id, success, quality)
      ensures history == old(history) && cooldowns == old(cooldowns) && results == old(results)
    {
      if id in library {
        var f := library[id];
        var current := RealOr(f.confidence, 0.5);
        library := library[id := f.(confidence := Some(NewConfidence(current, success, quality)))];
      }
    }

    /**
     * `record_execution_result`: stores the result with its effect metrics and
     * quality, reports the impact to the monitor and updates the confidence.
     * The step passed on is `game_state_after.get('step', 0)`; the monitor
     * declares it an `int`, and the state samples hold numbers, so the model
     * passes the whole part of that number: steps are whole numbers.
     */
    method RecordExecutionResult(id: string, success: bool, before: StateSample, after: StateSample, actions: ActionCounts)
      modifies this, monitor
      ensures var m := MetricsOf(before, after);
        results == old(results) + [FeedbackResult(id, success, before, after, actions, m, ExecutionQuality(success, m))]
      ensures library == ConfidenceUpdated(old(library), id, success, ExecutionQuality(success, MetricsOf(before, after)))
      ensures monitor.decisionImpactHistory == old(monitor.decisionImpactHistory) +
        [ImpactRecord(Num(after, "step").Floor, before, after, actions, ChangeOf(before, after, actions))]
      ensures monitor.functionUsageHistory == old(monitor.functionUsageHistory)
      ensures monitor.decisionQualityData == old(monitor.decisionQualityData)
      ensures monitor.prefabRelevanceHistory == old(monitor.prefabRelevanceHistory)
      ensures history == old(history) && cooldowns == old(cooldowns)
    {
      var m := MetricsOf(before, after);
      var quality := ExecutionQuality(success, m);
      results := results + [FeedbackResult(id, success, before, after, actions, m, quality)];
      monitor.RecordDecisionImpact(Num(after, "step").Floor, before, after, actions);
      UpdateFunctionConfidence(id, success, quality);
    }

    /**
     * `get_execution_history`: the latest records of one function (or of all
     * functions for an empty id), sliced as the code slices them, which is
     * the intended latest `limit` records for a positive limit but the whole
     * history for a limit of 0.
     */
    function GetExecutionHistory(id: string, limit: int): (r: seq<ExecutionResult>)
      reads this
      ensures var h := HistoryFor(results, id);
              |r| <= |h| && r == h[|h| - |r|..]
              && (limit > 0 ==> r == ExecutionHistory(results, id, limit))
              && (limit == 0 ==> r == h)
              && (limit < 0 ==> |r| == (if -limit >= |h| then 0 else |h| + limit))
      ensures forall i :: 0 <= i < |r| ==> r[i] in results && (id != "" ==> r[i].funcId == id)
    {
      AsWrittenHistoryFacts(results, id, limit);
      ExecutionHistoryAsWritten(results, id, limit)
    }
  }
}
