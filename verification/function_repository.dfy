/**
 * The linkage-graph prefab function library: a store of prefab functions keyed
 * by `function_id`, kept in insertion order, with four secondary indices
 * (by function type, by unit, by execution type, by tactic category) that map a
 * key to the list of ids filed under it.
 *
 * Every index is a `defaultdict(list)`: an absent key reads as the empty list.
 * Indices are appended to on insertion and have one occurrence removed per
 * reference on removal; overwriting an id does not withdraw the ids filed for
 * the previous entry. The invariant kept is therefore "each stored id occurs in
 * every list it is filed under at least as often as its current entry files it",
 * which is exactly what `remove_function` needs to never fail on `list.remove`.
 */
module FunctionRepository {
  import opened Common
  import opened PrefabRecord

  type Index = map<string, seq<string>>

  /** `index[k]` of a `defaultdict(list)` without inserting the key. */
  function Entries(idx: Index, k: string): seq<string>
  {
    GetOr(idx, k, [])
  }

  /** `index[k].append(id)`. */
  function Append(idx: Index, k: string, id: string): Index
  {
    idx[k := Entries(idx, k) + [id]]
  }

  /** `index[k].append(id)` for each `k` of `keys`, in order. */
  function AppendEach(idx: Index, keys: seq<string>, id: string): Index
    decreases |keys|
  {
    if keys == [] then idx else AppendEach(Append(idx, keys[0], id), keys[1..], id)
  }

  /** `if k in index: index[k].remove(id)`; `list.remove` would raise if `id` were absent. */
  function RemoveFrom(idx: Index, k: string, id: string): Index
    requires k in idx ==> id in idx[k]
  {
    if k in idx then idx[k := RemoveFirst(idx[k], id)] else idx
  }

  lemma AppendCount(idx: Index, k0: string, id: string, k: string, x: string)
    ensures Count(Entries(Append(idx, k0, id), k), x)
         == Count(Entries(idx, k), x) + (if k == k0 && x == id then 1 else 0)
  {
    CountAppend(Entries(idx, k0), id, x);
  }

  lemma {:induction false} AppendEachCount(idx: Index, keys: seq<string>, id: string, k: string, x: string)
    ensures Count(Entries(AppendEach(idx, keys, id), k), x)
         == Count(Entries(idx, k), x) + (if x == id then Count(keys, k) else 0)
    decreases |keys|
  {
    if keys != [] {
      AppendCount(idx, keys[0], id, k, x);
      AppendEachCount(Append(idx, keys[0], id), keys[1..], id, k, x);
      assert keys == [keys[0]] + keys[1..];
    }
  }

  lemma RemoveFromCount(idx: Index, k0: string, id: string, k: string, x: string)
    requires Count(Entries(idx, k0), id) >= 1
    ensures k0 in idx ==> id in idx[k0]
    ensures Count(Entries(RemoveFrom(idx, k0, id), k), x)
         == Count(Entries(idx, k), x) - (if k == k0 && x == id then 1 else 0)
  {
    RemoveFirstCount(Entries(idx, k0), id, x);
  }

  /** One step of `RemoveEach` keeps its precondition for the remaining keys. */
  lemma RemoveEachStep(idx: Index, keys: seq<string>, id: string)
    requires keys != []
    requires forall k :: k in keys ==> Count(Entries(idx, k), id) >= Count(keys, k)
    ensures Count(Entries(idx, keys[0]), id) >= 1
    ensures keys[0] in idx ==> id in idx[keys[0]]
    ensures forall k :: k in keys[1..] ==>
      Count(Entries(RemoveFrom(idx, keys[0], id), k), id) >= Count(keys[1..], k)
  {
    assert keys[0] in keys;
    RemoveFromCount(idx, keys[0], id, keys[0], id);
    forall k | k in keys[1..]
      ensures Count(Entries(RemoveFrom(idx, keys[0], id), k), id) >= Count(keys[1..], k)
    {
      assert k in keys;
      RemoveFromCount(idx, keys[0], id, k, id);
    }
  }

  /** Removes one occurrence of `id` per key of `keys`, each guarded by `if k in index`. */
  function RemoveEach(idx: Index, keys: seq<string>, id: string): Index
    requires forall k :: k in keys ==> Count(Entries(idx, k), id) >= Count(keys, k)
    decreases |keys|
  {
    if keys == [] then idx
    else
      RemoveEachStep(idx, keys, id);
      RemoveEach(RemoveFrom(idx, keys[0], id), keys[1..], id)
  }

  lemma {:induction false} RemoveEachCount(idx: Index, keys: seq<string>, id: string, k: string, x: string)
    requires forall k :: k in keys ==> Count(Entries(idx, k), id) >= Count(keys, k)
    ensures Count(Entries(RemoveEach(idx, keys, id), k), x)
         == Count(Entries(idx, k), x) - (if x == id then Count(keys, k) else 0)
    decreases |keys|
  {
    if keys != [] {
      RemoveEachStep(idx, keys, id);
      var next := RemoveFrom(idx, keys[0], id);
      RemoveFromCount(idx, keys[0], id, k, x);
      RemoveEachCount(next, keys[1..], id, k, x);
    }
  }

  // ------------------------------------------------------------ the store

  datatype Store = Store(
    functions: map<string, PrefabFunction>,
    /** The keys of `functions` in dict insertion order. */
    order: seq<string>,
    byType: Index,
    byUnit: Index,
    byExec: Index,
    byTactic: Index)

  function EmptyStore(): Store
  {
    Store(map[], [], map[], map[], map[], map[])
  }

  function OptList(o: Option<string>): seq<string>
  {
    if o.Some? then [o.value] else []
  }

  /** The unit-index keys an entry is filed under: source, target, then each of `units`. */
  function UnitKeys(f: PrefabFunction): seq<string>
  {
    OptList(f.sourceUnit) + OptList(f.targetUnit) + ListOr(f.units)
  }

  /** An entry the loader accepts into the store. */
  predicate Complete(f: PrefabFunction)
  {
    f.functionId.Some? && f.functionType.Some? && f.executionType.Some?
  }

  /**
   * `id` (whose entry is `f`) occurs in every index list often enough for a
   * removal of `f` to succeed. The unit and type references exist only once
   * `function_type` was read, the execution and tactic references only once
   * `execution_type` was read as well.
   */
  predicate RefsHeld(s: Store, id: string, f: PrefabFunction)
  {
    (f.functionType.Some? ==>
      Count(Entries(s.byType, f.functionType.value), id) >= 1 &&
      forall k :: k in UnitKeys(f) ==> Count(Entries(s.byUnit, k), id) >= Count(UnitKeys(f), k)) &&
    (f.functionType.Some? && f.executionType.Some? ==>
      Count(Entries(s.byExec, f.executionType.value), id) >= 1 &&
      (f.tacticCategory.Some? ==> Count(Entries(s.byTactic, f.tacticCategory.value), id) >= 1))
  }

  ghost predicate OrderMatches(s: Store)
  {
    NoDuplicates(s.order) && forall id :: id in s.functions <==> id in s.order
  }

  ghost predicate Consistent(s: Store)
  {
    OrderMatches(s) && forall id :: id in s.functions ==> RefsHeld(s, id, s.functions[id])
  }

  /** `self.prefab_functions[id] = f` (a new key goes last; an existing key keeps its place). */
  function Put(s: Store, id: string, f: PrefabFunction): Store
  {
    s.(functions := s.functions[id := f],
       order := if id in s.functions then s.order else s.order + [id])
  }

  /** The type-index and unit-index appends for `f`. */
  function IndexTypeAndUnits(s: Store, id: string, f: PrefabFunction): Store
    requires f.functionType.Some?
  {
    s.(byType := Append(s.byType, f.functionType.value, id),
       byUnit := AppendEach(s.byUnit, UnitKeys(f), id))
  }

  /** The execution-type and (if present) tactic-category appends for `f`. */
  function IndexExecAndTactic(s: Store, id: string, f: PrefabFunction): Store
    requires f.executionType.Some?
  {
    s.(byExec := Append(s.byExec, f.executionType.value, id),
       byTactic := if f.tacticCategory.Some? then Append(s.byTactic, f.tacticCategory.value, id) else s.byTactic)
  }

  /** Stores a complete entry and files it in all four indices. */
  function Insert(s: Store, f: PrefabFunction): Store
    requires Complete(f)
  {
    var id := f.functionId.value;
    IndexExecAndTactic(IndexTypeAndUnits(Put(s, id, f), id, f), id, f)
  }

  /** One iteration of the loader's insertion loop: incomplete entries are skipped. */
  function InsertStep(s: Store, f: PrefabFunction): Store
  {
    if Complete(f) then Insert(s, f) else s
  }

  function InsertAll(s: Store, fs: seq<PrefabFunction>): Store
    decreases |fs|
  {
    if fs == [] then s else InsertStep(InsertAll(s, fs[..|fs| - 1]), fs[|fs| - 1])
  }

  // ---------------------------------------------------- invariant preservation

  ghost predicate Covers(big: Index, small: Index)
  {
    forall k, x :: Count(Entries(big, k), x) >= Count(Entries(small, k), x)
  }

  ghost predicate CoversAll(t: Store, s: Store)
  {
    Covers(t.byType, s.byType) && Covers(t.byUnit, s.byUnit) &&
    Covers(t.byExec, s.byExec) && Covers(t.byTactic, s.byTactic)
  }

  lemma AppendCovers(idx: Index, k0: string, id: string)
    ensures Covers(Append(idx, k0, id), idx)
  {
    forall k, x ensures Count(Entries(Append(idx, k0, id), k), x) >= Count(Entries(idx, k), x) {
      AppendCount(idx, k0, id, k, x);
    }
  }

  lemma AppendEachCovers(idx: Index, keys: seq<string>, id: string)
    ensures Covers(AppendEach(idx, keys, id), idx)
  {
    forall k, x ensures Count(Entries(AppendEach(idx, keys, id), k), x) >= Count(Entries(idx, k), x) {
      AppendEachCount(idx, keys, id, k, x);
    }
  }

  lemma CoversKeepsRefs(s: Store, t: Store, x: string, g: PrefabFunction)
    requires CoversAll(t, s) && RefsHeld(s, x, g)
    ensures RefsHeld(t, x, g)
  {
    if g.functionType.Some? {
      var ft := g.functionType.value;
      assert Count(Entries(t.byType, ft), x) >= Count(Entries(s.byType, ft), x);
      forall k | k in UnitKeys(g) ensures Count(Entries(t.byUnit, k), x) >= Count(UnitKeys(g), k) {
        assert Count(Entries(t.byUnit, k), x) >= Count(Entries(s.byUnit, k), x);
      }
      if g.executionType.Some? {
        assert Count(Entries(t.byExec, g.executionType.value), x) >= Count(Entries(s.byExec, g.executionType.value), x);
        if g.tacticCategory.Some? {
          var tc := g.tacticCategory.value;
          assert Count(Entries(t.byTactic, tc), x) >= Count(Entries(s.byTactic, tc), x);
        }
      }
    }
  }

  lemma PutOrder(s: Store, id: string, f: PrefabFunction)
    requires OrderMatches(s)
    ensures OrderMatches(Put(s, id, f))
  {
  }

  /** After `Put` and any growth of the indices, every entry other than `id` keeps its references. */
  lemma OthersKept(s: Store, t: Store, id: string, f: PrefabFunction)
    requires Consistent(s)
    requires t.functions == s.functions[id := f]
    requires CoversAll(t, s)
    ensures forall x :: x in t.functions && x != id ==> RefsHeld(t, x, t.functions[x])
  {
    forall x | x in t.functions && x != id ensures RefsHeld(t, x, t.functions[x]) {
      CoversKeepsRefs(s, t, x, s.functions[x]);
    }
  }

  lemma TypeAndUnitsFiled(s: Store, id: string, f: PrefabFunction)
    requires f.functionType.Some?
    ensures var t := IndexTypeAndUnits(s, id, f);
      Count(Entries(t.byType, f.functionType.value), id) >= 1 &&
      forall k :: k in UnitKeys(f) ==> Count(Entries(t.byUnit, k), id) >= Count(UnitKeys(f), k)
  {
    AppendCount(s.byType, f.functionType.value, id, f.functionType.value, id);
    forall k | k in UnitKeys(f)
      ensures Count(Entries(AppendEach(s.byUnit, UnitKeys(f), id), k), id) >= Count(UnitKeys(f), k)
    {
      AppendEachCount(s.byUnit, UnitKeys(f), id, k, id);
    }
  }

  lemma {:induction false} InsertConsistent(s: Store, f: PrefabFunction)
    requires Consistent(s) && Complete(f)
    ensures Consistent(Insert(s, f))
  {
    var id := f.functionId.value;
    var s1 := Put(s, id, f);
    var s2 := IndexTypeAndUnits(s1, id, f);
    var s3 := IndexExecAndTactic(s2, id, f);
    PutOrder(s, id, f);
    AppendCovers(s.byType, f.functionType.value, id);
    AppendEachCovers(s.byUnit, UnitKeys(f), id);
    AppendCovers(s.byExec, f.executionType.value, id);
    if f.tacticCategory.Some? {
      AppendCovers(s.byTactic, f.tacticCategory.value, id);
    }
    OthersKept(s, s3, id, f);
    TypeAndUnitsFiled(s1, id, f);
    AppendCount(s2.byExec, f.executionType.value, id, f.executionType.value, id);
    if f.tacticCategory.Some? {
      AppendCount(s2.byTactic, f.tacticCategory.value, id, f.tacticCategory.value, id);
    }
    assert RefsHeld(s3, id, f);
  }

  lemma {:induction false} InsertAllConsistent(s: Store, fs: seq<PrefabFunction>)
    requires Consistent(s)
    ensures Consistent(InsertAll(s, fs))
    decreases |fs|
  {
    if fs != [] {
      InsertAllConsistent(s, fs[..|fs| - 1]);
      if Complete(fs[|fs| - 1]) {
        InsertConsistent(InsertAll(s, fs[..|fs| - 1]), fs[|fs| - 1]);
      }
    }
  }

  /** Entries present after loading come from the store before, or are complete entries of `fs`. */
  lemma {:induction false} InsertAllOrigin(s: Store, fs: seq<PrefabFunction>, id: string)
    requires id in InsertAll(s, fs).functions
    ensures var g := InsertAll(s, fs).functions[id];
      (id in s.functions && g == s.functions[id]) ||
      (g in fs && Complete(g) && g.functionId == Some(id))
    decreases |fs|
  {
    if fs != [] {
      var init := fs[..|fs| - 1];
      var last := fs[|fs| - 1];
      if Complete(last) && last.functionId == Some(id) {
        assert last in fs;
      } else {
        InsertAllOrigin(s, init, id);
        var g := InsertAll(s, init).functions[id];
        if g in init {
          assert g in fs;
        }
      }
    }
  }

  /** Every complete entry of `fs` is stored after loading. */
  lemma {:induction false} InsertAllStores(s: Store, fs: seq<PrefabFunction>, f: PrefabFunction)
    requires f in fs && Complete(f)
    ensures f.functionId.value in InsertAll(s, fs).functions
    decreases |fs|
  {
    var last := fs[|fs| - 1];
    if f != last {
      assert fs == fs[..|fs| - 1] + [last];
      InsertAllStores(s, fs[..|fs| - 1], f);
    }
  }

  // ---------------------------------------------------------- load filtering

  /** A Python string argument is truthy when it is given and non-empty. */
  predicate Given(o: Option<string>)
  {
    o.Some? && o.value != ""
  }

  /**
   * The race test of `load_prefab_functions`: `function_id` and (unless the id
   * already matched) `name` are read unguarded, so a missing one raises.
   */
  function RaceMatch(f: PrefabFunction, race: string): Result<bool>
  {
    if f.functionId.None? then Err("KeyError: function_id")
    else if Contains(Upper(f.functionId.value), Upper(race)) then Ok(true)
    else if f.name.None? then Err("KeyError: name")
    else if Contains(Lower(f.name.value), race) then Ok(true)
    else if f.sourceUnit.Some? && Contains(Lower(f.sourceUnit.value), race) then Ok(true)
    else if f.targetUnit.Some? && Contains(Lower(f.targetUnit.value), race) then Ok(true)
    else if f.units.Some? then Ok(exists u :: u in f.units.value && Contains(Lower(u), race))
    else Ok(exists step :: step in ListOr(f.executionFlow) && Contains(Lower(step), race))
  }

  /** The map test: a non-empty `applicable_maps` must name the map. */
  predicate MapMatch(f: PrefabFunction, mapName: string)
  {
    !(ListOr(f.applicableMaps) != [] && mapName !in ListOr(f.applicableMaps))
  }

  /** Whether one entry survives the race, map and schema filters, or the exception raised. */
  function Keep(f: PrefabFunction, race: Option<string>, mapName: Option<string>,
                validate: PrefabFunction -> bool): Result<bool>
  {
    var raceOk := if Given(race) then RaceMatch(f, race.value) else Ok(true);
    if raceOk.Err? then Err(raceOk.error)
    else if !raceOk.value then Ok(false)
    else if Given(mapName) && !MapMatch(f, mapName.value) then Ok(false)
    else Ok(validate(f))
  }

  /** The filtering loop: the kept entries in order, or the first exception. */
  function FilterFor(fs: seq<PrefabFunction>, race: Option<string>, mapName: Option<string>,
                     validate: PrefabFunction -> bool): Result<seq<PrefabFunction>>
    decreases |fs|
  {
    if fs == [] then Ok([])
    else
      var prev := FilterFor(fs[..|fs| - 1], race, mapName, validate);
      var k := Keep(fs[|fs| - 1], race, mapName, validate);
      if prev.Err? then prev
      else if k.Err? then Err(k.error)
      else Ok(if k.value then prev.value + [fs[|fs| - 1]] else prev.value)
  }

  lemma {:induction false} FilterErrPersists(fs: seq<PrefabFunction>, i: nat, race: Option<string>,
                                             mapName: Option<string>, validate: PrefabFunction -> bool)
    requires i <= |fs|
    requires FilterFor(fs[..i], race, mapName, validate).Err?
    ensures FilterFor(fs, race, mapName, validate).Err?
    decreases |fs| - i
  {
    if i < |fs| {
      assert fs[..i + 1][..i] == fs[..i];
      FilterErrPersists(fs, i + 1, race, mapName, validate);
    } else {
      assert fs[..i] == fs;
    }
  }

  /** Every kept entry passed the map filter and the schema validator. */
  lemma {:induction false} FilterForKept(fs: seq<PrefabFunction>, race: Option<string>, mapName: Option<string>,
                                         validate: PrefabFunction -> bool, f: PrefabFunction)
    requires FilterFor(fs, race, mapName, validate).Ok?
    requires f in FilterFor(fs, race, mapName, validate).value
    ensures f in fs && validate(f)
    ensures Given(mapName) ==> ListOr(f.applicableMaps) == [] || mapName.value in ListOr(f.applicableMaps)
    ensures Given(race) ==> RaceMatch(f, race.value) == Ok(true)
    decreases |fs|
  {
    var init := fs[..|fs| - 1];
    var last := fs[|fs| - 1];
    if f in FilterFor(init, race, mapName, validate).value {
      FilterForKept(init, race, mapName, validate, f);
    } else {
      assert f == last;
    }
  }

  /** The effect of `load_prefab_functions` on the store: unchanged if the filter raised. */
  function LoadSpec(s: Store, fs: seq<PrefabFunction>, race: Option<string>, mapName: Option<string>,
                    merge: bool, validate: PrefabFunction -> bool): Store
  {
    var kept := FilterFor(fs, race, mapName, validate);
    if kept.Err? then s else InsertAll(if merge then s else EmptyStore(), kept.value)
  }

  /**
   * Loading without merge replaces the library: the result holds exactly the
   * complete kept entries, whatever the store held before.
   */
  lemma LoadReplaces(s: Store, fs: seq<PrefabFunction>, race: Option<string>, mapName: Option<string>,
                     validate: PrefabFunction -> bool, id: string)
    requires FilterFor(fs, race, mapName, validate).Ok?
    ensures var kept := FilterFor(fs, race, mapName, validate).value;
      var r := LoadSpec(s, fs, race, mapName, false, validate);
      id in r.functions <==> exists f :: f in kept && Complete(f) && f.functionId == Some(id)
  {
    var kept := FilterFor(fs, race, mapName, validate).value;
    var r := LoadSpec(s, fs, race, mapName, false, validate);
    if id in r.functions {
      InsertAllOrigin(EmptyStore(), kept, id);
    }
    if f :| f in kept && Complete(f) && f.functionId == Some(id) {
      InsertAllStores(EmptyStore(), kept, f);
    }
  }

  /** Every stored entry is complete and passed the map filter when it was loaded without merge. */
  lemma LoadedEntries(s: Store, fs: seq<PrefabFunction>, race: Option<string>, mapName: Option<string>,
                      validate: PrefabFunction -> bool, id: string)
    requires FilterFor(fs, race, mapName, validate).Ok?
    requires id in LoadSpec(s, fs, race, mapName, false, validate).functions
    ensures var g := LoadSpec(s, fs, race, mapName, false, validate).functions[id];
      Complete(g) && g.functionId == Some(id) && validate(g) &&
      (Given(mapName) ==> ListOr(g.applicableMaps) == [] || mapName.value in ListOr(g.applicableMaps))
  {
    var kept := FilterFor(fs, race, mapName, validate).value;
    InsertAllOrigin(EmptyStore(), kept, id);
    FilterForKept(fs, race, mapName, validate, LoadSpec(s, fs, race, mapName, false, validate).functions[id]);
  }

  /** Every stored complete entry is filed under its function type and its execution type. */
  lemma StoredIdIndexed(s: Store, id: string)
    requires Consistent(s) && id in s.functions
    requires s.functions[id].functionType.Some? && s.functions[id].executionType.Some?
    ensures id in Entries(s.byType, s.functions[id].functionType.value)
    ensures id in Entries(s.byExec, s.functions[id].executionType.value)
  {
    assert RefsHeld(s, id, s.functions[id]);
  }

  // ------------------------------------------------------------ add / remove

  datatype AddOutcome = Added | MissingId | Rejected | AddRaised(key: string)

  /**
   * `add_prefab_function`: the entry is stored before the indices are written,
   * and `function_type` / `execution_type` are read unguarded, so a missing one
   * raises `KeyError` with the store (and some indices) already updated.
   */
  function AddSpec(s: Store, f: PrefabFunction, validate: PrefabFunction -> bool): (AddOutcome, Store)
  {
    if f.functionId.None? then (MissingId, s)
    else if !validate(f) then (Rejected, s)
    else
      var id := f.functionId.value;
      var s1 := Put(s, id, f);
      if f.functionType.None? then (AddRaised("function_type"), s1)
      else
        var s2 := IndexTypeAndUnits(s1, id, f);
        if f.executionType.None? then (AddRaised("execution_type"), s2)
        else (Added, IndexExecAndTactic(s2, id, f))
  }

  lemma AddConsistent(s: Store, f: PrefabFunction, validate: PrefabFunction -> bool)
    requires Consistent(s)
    ensures Consistent(AddSpec(s, f, validate).1)
    ensures AddSpec(s, f, validate).0 == Added <==> Complete(f) && validate(f)
    ensures AddSpec(s, f, validate).0 == Added ==> AddSpec(s, f, validate).1 == Insert(s, f)
    ensures AddSpec(s, f, validate).0 in {MissingId, Rejected} ==> AddSpec(s, f, validate).1 == s
  {
    if f.functionId.Some? && validate(f) {
      var id := f.functionId.value;
      var s1 := Put(s, id, f);
      PutOrder(s, id, f);
      if f.functionType.None? {
        OthersKept(s, s1, id, f);
      } else if f.executionType.None? {
        PartialAddConsistent(s, f);
      } else {
        InsertConsistent(s, f);
      }
    }
  }

  /** An add that raises on the missing `execution_type` still leaves a consistent store. */
  lemma PartialAddConsistent(s: Store, f: PrefabFunction)
    requires Consistent(s) && f.functionId.Some? && f.functionType.Some? && f.executionType.None?
    ensures var id := f.functionId.value; Consistent(IndexTypeAndUnits(Put(s, id, f), id, f))
  {
    var id := f.functionId.value;
    var s1 := Put(s, id, f);
    var s2 := IndexTypeAndUnits(s1, id, f);
    PutOrder(s, id, f);
    AppendCovers(s.byType, f.functionType.value, id);
    AppendEachCovers(s.byUnit, UnitKeys(f), id);
    OthersKept(s, s2, id, f);
    TypeAndUnitsFiled(s1, id, f);
  }

  datatype RemoveOutcome = NotFound | Removed | RemoveRaised(key: string)

  /**
   * `remove_function`: the entry is popped first; `function_type` and
   * `execution_type` are then read unguarded, so an entry lacking one raises
   * `KeyError` half way through.
   */
  function RemoveSpec(s: Store, id: string): (RemoveOutcome, Store)
    requires Consistent(s)
  {
    if id !in s.functions then (NotFound, s)
    else
      var f := s.functions[id];
      assert RefsHeld(s, id, f);
      var s1 := Pop(s, id);
      if f.functionType.None? then (RemoveRaised("function_type"), s1)
      else
        var s2 := UnindexTypeAndUnits(s1, id, f);
        if f.executionType.None? then (RemoveRaised("execution_type"), s2)
        else (Removed, UnindexExecAndTactic(s2, id, f))
  }

  /** `self.prefab_functions.pop(id)`. */
  function Pop(s: Store, id: string): Store
  {
    s.(functions := s.functions - {id}, order := RemoveAll(s.order, id))
  }

  /** The type-index and unit-index removals for `f`; each `list.remove` finds `id` because its references are held. */
  function UnindexTypeAndUnits(s: Store, id: string, f: PrefabFunction): Store
    requires f.functionType.Some? && RefsHeld(s, id, f)
  {
    var ft := f.functionType.value;
    RemoveFromCount(s.byType, ft, id, ft, id);
    s.(byType := RemoveFrom(s.byType, ft, id), byUnit := RemoveEach(s.byUnit, UnitKeys(f), id))
  }

  /** The execution-type and (if present) tactic-category removals for `f`. */
  function UnindexExecAndTactic(s: Store, id: string, f: PrefabFunction): Store
    requires f.executionType.Some? && Count(Entries(s.byExec, f.executionType.value), id) >= 1
    requires f.tacticCategory.Some? ==> Count(Entries(s.byTactic, f.tacticCategory.value), id) >= 1
  {
    var et := f.executionType.value;
    RemoveFromCount(s.byExec, et, id, et, id);
    if f.tacticCategory.Some? then
      var tc := f.tacticCategory.value;
      RemoveFromCount(s.byTactic, tc, id, tc, id);
      s.(byExec := RemoveFrom(s.byExec, et, id), byTactic := RemoveFrom(s.byTactic, tc, id))
    else
      s.(byExec := RemoveFrom(s.byExec, et, id))
  }

  /** Withdrawing `id`'s type and unit references leaves those of any other id `x` in place. */
  lemma UnindexTypeAndUnitsKeeps(s: Store, id: string, f: PrefabFunction, x: string, g: PrefabFunction)
    requires f.functionType.Some? && RefsHeld(s, id, f) && RefsHeld(s, x, g) && x != id
    ensures RefsHeld(UnindexTypeAndUnits(s, id, f), x, g)
  {
    var t := UnindexTypeAndUnits(s, id, f);
    if g.functionType.Some? {
      RemoveFromCount(s.byType, f.functionType.value, id, g.functionType.value, x);
      forall k | k in UnitKeys(g) ensures Count(Entries(t.byUnit, k), x) >= Count(UnitKeys(g), k) {
        RemoveEachCount(s.byUnit, UnitKeys(f), id, k, x);
      }
    }
  }

  /** Withdrawing `id`'s execution and tactic references leaves those of any other id `x` in place. */
  lemma UnindexExecAndTacticKeeps(s: Store, id: string, f: PrefabFunction, x: string, g: PrefabFunction)
    requires f.executionType.Some? && Count(Entries(s.byExec, f.executionType.value), id) >= 1
    requires f.tacticCategory.Some? ==> Count(Entries(s.byTactic, f.tacticCategory.value), id) >= 1
    requires RefsHeld(s, x, g) && x != id
    ensures RefsHeld(UnindexExecAndTactic(s, id, f), x, g)
  {
    if g.functionType.Some? && g.executionType.Some? {
      RemoveFromCount(s.byExec, f.executionType.value, id, g.executionType.value, x);
      if f.tacticCategory.Some? && g.tacticCategory.Some? {
        RemoveFromCount(s.byTactic, f.tacticCategory.value, id, g.tacticCategory.value, x);
      }
    }
  }

  lemma {:induction false} RemoveAllNoDuplicates(s: seq<string>, x: string)
    requires NoDuplicates(s)
    ensures NoDuplicates(RemoveAll(s, x))
    decreases |s|
  {
    if s != [] {
      RemoveAllNoDuplicates(s[1..], x);
      var r := RemoveAll(s[1..], x);
      if s[0] != x {
        assert s[0] !in s[1..];
        assert forall i :: 0 <= i < |r| ==> r[i] in s[1..];
        assert RemoveAll(s, x) == [s[0]] + r;
      }
    }
  }

  lemma RemoveConsistent(s: Store, id: string)
    requires Consistent(s)
    ensures Consistent(RemoveSpec(s, id).1)
  {
    if id in s.functions {
      var t := RemoveSpec(s, id).1;
      RemovePops(s, id);
      RemoveAllNoDuplicates(s.order, id);
      assert OrderMatches(t);
      forall x | x in t.functions ensures RefsHeld(t, x, t.functions[x]) {
        RemoveKeepsRefs(s, id, x);
      }
    }
  }

  /** Whatever the outcome, a removal of a stored id pops it from the dict. */
  lemma RemovePops(s: Store, id: string)
    requires Consistent(s) && id in s.functions
    ensures var t := RemoveSpec(s, id).1;
      t.functions == s.functions - {id} && t.order == RemoveAll(s.order, id)
  {
    var f := s.functions[id];
    assert RefsHeld(s, id, f);
    var s1 := Pop(s, id);
    if f.functionType.Some? {
      var s2 := UnindexTypeAndUnits(s1, id, f);
      assert s2.functions == s1.functions && s2.order == s1.order;
      if f.executionType.Some? {
        var s3 := UnindexExecAndTactic(s2, id, f);
        assert s3.functions == s1.functions && s3.order == s1.order;
      }
    }
  }

  /** Removing `id` leaves every other stored entry's references in place. */
  lemma RemoveKeepsRefs(s: Store, id: string, x: string)
    requires Consistent(s) && id in s.functions && x in RemoveSpec(s, id).1.functions
    ensures var t := RemoveSpec(s, id).1; RefsHeld(t, x, t.functions[x])
  {
    var f := s.functions[id];
    var g := s.functions[x];
    RemovePops(s, id);
    assert RefsHeld(s, id, f) && RefsHeld(s, x, g);
    var s1 := Pop(s, id);
    if f.functionType.None? {
      assert RemoveSpec(s, id).1 == s1;
    } else {
      var s2 := UnindexTypeAndUnits(s1, id, f);
      UnindexTypeAndUnitsKeeps(s1, id, f, x, g);
      if f.executionType.None? {
        assert RemoveSpec(s, id).1 == s2;
      } else {
        UnindexExecAndTacticKeeps(s2, id, f, x, g);
        assert RemoveSpec(s, id).1 == UnindexExecAndTactic(s2, id, f);
      }
    }
  }

  /**
   * A successful removal drops the id from the store and withdraws exactly one
   * occurrence of it per reference its entry filed, from every index.
   */
  lemma RemoveDropsRefs(s: Store, id: string, k: string)
    requires Consistent(s) && RemoveSpec(s, id).0 == Removed
    ensures var t := RemoveSpec(s, id).1;
      var f := s.functions[id];
      id !in t.functions && id !in t.order &&
      Count(Entries(t.byType, k), id) == Count(Entries(s.byType, k), id) - (if Some(k) == f.functionType then 1 else 0) &&
      Count(Entries(t.byUnit, k), id) == Count(Entries(s.byUnit, k), id) - Count(UnitKeys(f), k) &&
      Count(Entries(t.byExec, k), id) == Count(Entries(s.byExec, k), id) - (if Some(k) == f.executionType then 1 else 0) &&
      Count(Entries(t.byTactic, k), id) == Count(Entries(s.byTactic, k), id) - (if Some(k) == f.tacticCategory then 1 else 0)
  {
    var f := s.functions[id];
    assert RefsHeld(s, id, f);
    RemoveFromCount(s.byType, f.functionType.value, id, k, id);
    RemoveEachCount(s.byUnit, UnitKeys(f), id, k, id);
    RemoveFromCount(s.byExec, f.executionType.value, id, k, id);
    if f.tacticCategory.Some? {
      RemoveFromCount(s.byTactic, f.tacticCategory.value, id, k, id);
    }
  }

  // ------------------------------------------------------------------ search

  /** The criteria `search_functions(**kwargs)` accepts; `None` means the keyword was not passed. */
  datatype Query = Query(functionType: Option<string>, unit: Option<string>, executionType: Option<string>,
                         tacticCategory: Option<string>, keyword: Option<string>)

  /** Membership in the intersection of the requested index lists. */
  predicate InIndices(s: Store, q: Query, id: string)
  {
    (q.functionType.Some? ==> id in Entries(s.byType, q.functionType.value)) &&
    (q.unit.Some? ==> id in Entries(s.byUnit, q.unit.value)) &&
    (q.executionType.Some? ==> id in Entries(s.byExec, q.executionType.value)) &&
    (q.tacticCategory.Some? ==> id in Entries(s.byTactic, q.tacticCategory.value))
  }

  /** The keyword test reads `name` unguarded, and `description` only when the name misses. */
  function KeywordMatch(f: PrefabFunction, kw: string): Result<bool>
  {
    if f.name.None? then Err("KeyError: name")
    else if Contains(Lower(f.name.value), kw) then Ok(true)
    else if f.description.None? then Err("KeyError: description")
    else Ok(Contains(Lower(f.description.value), kw))
  }

  /** The ids of the functions `search_functions` returns (the list is in set order), or the error. */
  function Search(s: Store, q: Query): (r: Result<set<string>>)
    ensures r.Ok? ==> forall id :: id in r.value ==> id in s.functions && InIndices(s, q, id)
  {
    var candidates := set id | id in s.functions && InIndices(s, q, id);
    if q.keyword.None? then Ok(candidates)
    else
      var kw := Lower(q.keyword.value);
      if exists id :: id in candidates && KeywordMatch(s.functions[id], kw).Err? then Err("KeyError")
      else Ok(set id | id in candidates && KeywordMatch(s.functions[id], kw) == Ok(true))
  }

  /** A stored entry whose own fields meet every index criterion is found. */
  lemma SearchFindsMatching(s: Store, q: Query, id: string)
    requires Consistent(s) && id in s.functions && q.keyword.None?
    requires var f := s.functions[id];
      (q.functionType.Some? ==> f.functionType == q.functionType) &&
      (q.unit.Some? ==> f.functionType.Some? && q.unit.value in UnitKeys(f)) &&
      (q.executionType.Some? ==> f.functionType.Some? && f.executionType == q.executionType) &&
      (q.tacticCategory.Some? ==> f.functionType.Some? && f.executionType.Some? && f.tacticCategory == q.tacticCategory)
    ensures Search(s, q).Ok? && id in Search(s, q).value
  {
    var f := s.functions[id];
    assert RefsHeld(s, id, f);
    if q.unit.Some? {
      assert Count(UnitKeys(f), q.unit.value) >= 1;
    }
  }

  // ------------------------------------------------------------ consistency

  function RequiredFields(f: PrefabFunction): (r: bool)
  {
    f.functionId.Some? && f.functionType.Some? && f.name.Some? && f.description.Some? &&
    f.linkageType.Some? && f.executionType.Some? && f.parameters.Some? && f.executionFlow.Some?
  }

  predicate ParamComplete(p: Param)
  {
    p.name.Some? && p.ptype.Some? && p.description.Some?
  }

  /** What `validate_function_consistency` accepts (the execution-flow check only warns). */
  predicate IsConsistent(f: PrefabFunction)
  {
    RequiredFields(f) &&
    (forall i :: 0 <= i < |f.parameters.value| ==> ParamComplete(f.parameters.value[i])) &&
    (f.confidence.Some? ==> 0.0 <= f.confidence.value <= 1.0)
  }

  /** The ids of `fs` that fail the consistency check, in order. */
  function InvalidIds(ids: seq<string>, fs: map<string, PrefabFunction>): (r: seq<string>)
    requires forall i :: 0 <= i < |ids| ==> ids[i] in fs
    ensures forall i :: 0 <= i < |r| ==> r[i] in ids && !IsConsistent(fs[r[i]])
    ensures forall i :: 0 <= i < |ids| && !IsConsistent(fs[ids[i]]) ==> ids[i] in r
    decreases |ids|
  {
    if ids == [] then []
    else
      var prev := InvalidIds(ids[..|ids| - 1], fs);
      assert forall i :: 0 <= i < |prev| ==> prev[i] in ids by {
        forall i | 0 <= i < |prev| ensures prev[i] in ids {
          assert prev[i] in ids[..|ids| - 1];
        }
      }
      var r := if IsConsistent(fs[ids[|ids| - 1]]) then prev else prev + [ids[|ids| - 1]];
      assert forall i :: 0 <= i < |ids| - 1 ==> ids[i] == ids[..|ids| - 1][i];
      r
  }

  // ---------------------------------------------------------------- statistics

  /** The entries in dict order (`prefab_functions.values()`). */
  function Values(s: Store): (r: seq<PrefabFunction>)
    requires OrderMatches(s)
    ensures |r| == |s.order|
    ensures forall i :: 0 <= i < |r| ==> r[i] == s.functions[s.order[i]]
  {
    seq(|s.order|, i requires 0 <= i < |s.order| => s.functions[s.order[i]])
  }

  function ParamTotal(vs: seq<PrefabFunction>): nat
    decreases |vs|
  {
    if vs == [] then 0 else ParamTotal(vs[..|vs| - 1]) + |ListOr(vs[|vs| - 1].parameters)|
  }

  function ConfidenceSum(vs: seq<PrefabFunction>): real
    decreases |vs|
  {
    if vs == [] then 0.0 else ConfidenceSum(vs[..|vs| - 1]) + RealOr(vs[|vs| - 1].confidence, 0.0)
  }

  function ConfidenceCount(vs: seq<PrefabFunction>): nat
    decreases |vs|
  {
    if vs == [] then 0 else ConfidenceCount(vs[..|vs| - 1]) + (if vs[|vs| - 1].confidence.Some? then 1 else 0)
  }

  /** Confidences within `[0, 1]` sum to at most the number of confidences. */
  lemma {:induction false} ConfidenceSumBounds(vs: seq<PrefabFunction>)
    requires forall i :: 0 <= i < |vs| && vs[i].confidence.Some? ==> 0.0 <= vs[i].confidence.value <= 1.0
    ensures 0.0 <= ConfidenceSum(vs) <= ConfidenceCount(vs) as real
    decreases |vs|
  {
    if vs != [] {
      ConfidenceSumBounds(vs[..|vs| - 1]);
    }
  }

  datatype Stats = Stats(
    totalFunctions: nat,
    typeDistribution: map<string, nat>,
    execDistribution: map<string, nat>,
    tacticDistribution: map<string, nat>,
    unitsInvolved: nat,
    avgParameters: real,
    avgConfidence: real)

  function Distribution(idx: Index): (d: map<string, nat>)
    ensures d.Keys == idx.Keys
    ensures forall k :: k in d ==> d[k] == |idx[k]|
  {
    map k | k in idx :: |idx[k]|
  }

  /** Mean confidence over the entries that have one, or 0 when none has. */
  function AverageConfidence(vs: seq<PrefabFunction>): (r: real)
    ensures ConfidenceCount(vs) == 0 ==> r == 0.0
  {
    if ConfidenceCount(vs) > 0 then ConfidenceSum(vs) / ConfidenceCount(vs) as real else 0.0
  }

  lemma AverageConfidenceInRange(vs: seq<PrefabFunction>)
    requires forall i :: 0 <= i < |vs| && vs[i].confidence.Some? ==> 0.0 <= vs[i].confidence.value <= 1.0
    ensures 0.0 <= AverageConfidence(vs) <= 1.0
  {
    ConfidenceSumBounds(vs);
    if ConfidenceCount(vs) > 0 {
      var n := ConfidenceCount(vs) as real;
      var a := ConfidenceSum(vs) / n;
      assert a * n == ConfidenceSum(vs);
    }
  }

  // ------------------------------------------------------------- relevance

  /** The lower-cased unit names an entry mentions (`func_units`). */
  function FuncUnits(f: PrefabFunction): set<string>
  {
    set u | u in UnitKeys(f) :: Lower(u)
  }

  /** `0.1 * count` for every unit type whose lower-cased name the entry mentions. */
  function TypeBonus(c: TypeCounts, units: set<string>): (r: real)
    ensures r >= 0.0
  {
    if c == [] then 0.0
    else (if Lower(c[0].0) in units then 0.1 * c[0].1 as real else 0.0) + TypeBonus(c[1..], units)
  }

  function RequiredUnitHits(req: seq<string>, friendly: TypeCounts): (n: nat)
    ensures n <= |req|
  {
    if req == [] then 0 else (if HasKey(friendly, Lower(req[0])) then 1 else 0) + RequiredUnitHits(req[1..], friendly)
  }

  function ExecBonus(execType: string, g: GameState): (r: real)
    ensures 0.0 <= r <= 0.25
  {
    if execType == "attack" && g.enemyCount > 0 then 0.2
    else if execType == "move" && g.friendlyCount > 0 then 0.1
    else if execType == "frontal_assault" && g.enemyCount > 0 then 0.25
    else if execType == "ambush_attack" && g.enemyCount > 0 then 0.2
    else if execType == "ability" && g.friendlyCount > 0 then 0.15
    else if execType == "concurrent" && g.friendlyCount > 1 then 0.2
    else if execType == "fortified_position" && g.friendlyCount > 0 then 0.15
    else if execType == "coordinated_advance" && g.friendlyCount > 1 then 0.2
    else 0.0
  }

  /** `0.2` times the share of the entry's required units the friendly side fields. */
  function RequiredBonus(f: PrefabFunction, g: GameState): (r: real)
    ensures 0.0 <= r <= 0.2
  {
    var req := ListOr(f.prereqUnits);
    var hits := RequiredUnitHits(req, g.friendlyTypes);
    if f.prereqUnits.Some? && hits > 0 then
      var n := |req| as real;
      var share := hits as real / n;
      assert n / n == 1.0;
      assert (n - hits as real) / n == n / n - share;
      assert (n - hits as real) / n >= 0.0;
      0.2 * share
    else 0.0
  }

  /** `_calculate_function_relevance` of the library manager: a score in `[0, 1]`. */
  function Relevance(f: PrefabFunction, g: GameState): (r: real)
    ensures 0.0 <= r <= 1.0
  {
    var units := FuncUnits(f);
    var special := (if "all_friendly" in units then 0.3 else 0.0) + (if "all_enemy" in units then 0.3 else 0.0);
    var typed := TypeBonus(g.friendlyTypes, units) + TypeBonus(g.enemyTypes, units);
    var required := RequiredBonus(f, g);
    var exec := ExecBonus(Lower(StrOr(f.executionType, "")), g);
    MinReal(special + typed + required + exec, 1.0)
  }

  /** An entry paired with its relevance, ranked by `confidence * 0.7 + relevance * 0.3`. */
  function ScoreEntry(f: PrefabFunction, g: GameState): (r: Scored<(PrefabFunction, real)>)
    ensures r.item.0 == f && 0.0 <= r.item.1 <= 1.0
    ensures 0.0 <= RealOr(f.confidence, 0.5) <= 1.0 ==> 0.0 <= r.score <= 1.0
    ensures f.confidence.None? ==> 0.35 <= r.score <= 0.65
  {
    var rel := Relevance(f, g);
    Scored((f, rel), RealOr(f.confidence, 0.5) * 0.7 + rel * 0.3)
  }

  function ScoreAll(vs: seq<PrefabFunction>, g: GameState): (r: seq<Scored<(PrefabFunction, real)>>)
    ensures |r| == |vs|
    ensures forall i :: 0 <= i < |r| ==> r[i] == ScoreEntry(vs[i], g)
    decreases |vs|
  {
    if vs == [] then [] else ScoreAll(vs[..|vs| - 1], g) + [ScoreEntry(vs[|vs| - 1], g)]
  }

  // ------------------------------------------------------------- the class

  class PrefabFunctionManager {
    var functions: map<string, PrefabFunction>
    var order: seq<string>
    var functionTypeIndex: Index
    var unitIndex: Index
    var executionTypeIndex: Index
    var tacticCategoryIndex: Index
    /** The schema validator's `validate_function`. */
    const validate: PrefabFunction -> bool

    function State(): Store
      reads this
    {
      Store(functions, order, functionTypeIndex, unitIndex, executionTypeIndex, tacticCategoryIndex)
    }

    ghost predicate Valid()
      reads this
    {
      Consistent(State())
    }

    constructor(validate: PrefabFunction -> bool)
      ensures Valid() && State() == EmptyStore() && this.validate == validate
    {
      functions, order := map[], [];
      functionTypeIndex, unitIndex, executionTypeIndex, tacticCategoryIndex := map[], map[], map[], map[];
      this.validate := validate;
    }

    method SetState(s: Store)
      modifies this
      ensures State() == s
    {
      functions, order := s.functions, s.order;
      functionTypeIndex, unitIndex := s.byType, s.byUnit;
      executionTypeIndex, tacticCategoryIndex := s.byExec, s.byTactic;
    }

    /** `load_prefab_functions` on the parsed file content `fs`. */
    method Load(fs: seq<PrefabFunction>, race: Option<string>, mapName: Option<string>, merge: bool)
      returns (ok: bool)
      requires Valid()
      modifies this
      ensures Valid()
      ensures ok <==> FilterFor(fs, race, mapName, validate).Ok?
      ensures State() == LoadSpec(old(State()), fs, race, mapName, merge, validate)
    {
      var kept: seq<PrefabFunction> := [];
      var i := 0;
      while i < |fs|
        invariant 0 <= i <= |fs|
        invariant FilterFor(fs[..i], race, mapName, validate) == Ok(kept)
      {
        assert fs[..i + 1][..i] == fs[..i];
        var k := Keep(fs[i], race, mapName, validate);
        if k.Err? {
          FilterErrPersists(fs, i + 1, race, mapName, validate);
          return false;
        }
        if k.value {
          kept := kept + [fs[i]];
        }
        i := i + 1;
      }
      assert fs[..i] == fs;
      if !merge {
        SetState(EmptyStore());
      }
      InsertEach(kept);
      return true;
    }

    /** The loader's insertion loop over the entries kept by the filter. */
    method InsertEach(kept: seq<PrefabFunction>)
      requires Valid()
      modifies this
      ensures Valid()
      ensures State() == InsertAll(old(State()), kept)
    {
      var j := 0;
      while j < |kept|
        invariant 0 <= j <= |kept|
        invariant State() == InsertAll(old(State()), kept[..j])
        invariant Valid()
      {
        assert kept[..j + 1][..j] == kept[..j];
        InsertOne(kept[j]);
        j := j + 1;
      }
      assert kept[..j] == kept;
    }

    /** One iteration of the loader's insertion loop. */
    method InsertOne(f: PrefabFunction)
      requires Valid()
      modifies this
      ensures Valid()
      ensures State() == InsertStep(old(State()), f)
    {
      if !Complete(f) {
        return;
      }
      InsertConsistent(State(), f);
      ghost var s1 := Put(State(), f.functionId.value, f);
      ghost var s2 := IndexTypeAndUnits(s1, f.functionId.value, f);
      var id := f.functionId.value;
      if id !in functions {
        order := order + [id];
      }
      functions := functions[id := f];
      assert State() == s1;
      functionTypeIndex := Append(functionTypeIndex, f.functionType.value, id);
      FileUnits(UnitKeys(f), id);
      assert State() == s2;
      executionTypeIndex := Append(executionTypeIndex, f.executionType.value, id);
      if f.tacticCategory.Some? {
        tacticCategoryIndex := Append(tacticCategoryIndex, f.tacticCategory.value, id);
      }
    }

    /** The loop `for unit in ...: unit_index[unit].append(function_id)`. */
    method FileUnits(keys: seq<string>, id: string)
      modifies this`unitIndex
      ensures unitIndex == AppendEach(old(unitIndex), keys, id)
    {
      var u := 0;
      while u < |keys|
        invariant 0 <= u <= |keys|
        invariant AppendEach(unitIndex, keys[u..], id) == AppendEach(old(unitIndex), keys, id)
      {
        assert keys[u..][1..] == keys[u + 1..];
        unitIndex := Append(unitIndex, keys[u], id);
        u := u + 1;
      }
    }

    /** `add_prefab_function` (and `update_function`, which delegates to it). */
    method Add(f: PrefabFunction) returns (outcome: AddOutcome)
      requires Valid()
      modifies this
      ensures Valid()
      ensures (outcome, State()) == AddSpec(old(State()), f, validate)
    {
      AddConsistent(State(), f, validate);
      var r := AddSpec(State(), f, validate);
      outcome := r.0;
      SetState(r.1);
    }

    /** `remove_function`. */
    method Remove(id: string) returns (outcome: RemoveOutcome)
      requires Valid()
      modifies this
      ensures Valid()
      ensures (outcome, State()) == RemoveSpec(old(State()), id)
      ensures outcome == NotFound <==> id !in old(functions)
    {
      RemoveConsistent(State(), id);
      var r := RemoveSpec(State(), id);
      outcome := r.0;
      SetState(r.1);
    }

    /** `validate_function_consistency`. */
    method ValidateConsistency(f: PrefabFunction) returns (ok: bool)
      ensures ok <==> IsConsistent(f)
    {
      if !RequiredFields(f) {
        return false;
      }
      var params := f.parameters.value;
      var i := 0;
      while i < |params|
        invariant 0 <= i <= |params|
        invariant forall j :: 0 <= j < i ==> ParamComplete(params[j])
      {
        if !ParamComplete(params[i]) {
          return false;
        }
        i := i + 1;
      }
      if f.confidence.Some? && !(0.0 <= f.confidence.value <= 1.0) {
        return false;
      }
      return true;
    }

    /** `validate_all_functions`: the ids whose entries fail the consistency check, in dict order. */
    method ValidateAll() returns (invalid: seq<string>)
      requires Valid()
      ensures invalid == InvalidIds(order, functions)
    {
      invalid := [];
      var i := 0;
      while i < |order|
        invariant 0 <= i <= |order|
        invariant invalid == InvalidIds(order[..i], functions)
      {
        assert order[..i + 1][..i] == order[..i];
        var ok := ValidateConsistency(functions[order[i]]);
        if !ok {
          invalid := invalid + [order[i]];
        }
        i := i + 1;
      }
      assert order[..i] == order;
    }

    /** `get_statistics`, without the rounding of the two averages. */
    method Statistics() returns (st: Stats)
      requires Valid()
      ensures st.totalFunctions == |functions| && st.unitsInvolved == |unitIndex.Keys|
      ensures st.typeDistribution == Distribution(functionTypeIndex)
      ensures st.execDistribution == Distribution(executionTypeIndex)
      ensures st.tacticDistribution == Distribution(tacticCategoryIndex)
      ensures st.avgParameters == (if |order| > 0 then ParamTotal(Values(State())) as real / |order| as real else 0.0)
      ensures st.avgConfidence == AverageConfidence(Values(State()))
    {
      var vs := Values(State());
      var totalParams: nat := 0;
      var totalConfidence := 0.0;
      var confidenceCount: nat := 0;
      var i := 0;
      while i < |vs|
        invariant 0 <= i <= |vs|
        invariant totalParams == ParamTotal(vs[..i])
        invariant totalConfidence == ConfidenceSum(vs[..i])
        invariant confidenceCount == ConfidenceCount(vs[..i])
      {
        assert vs[..i + 1][..i] == vs[..i];
        totalParams := totalParams + |ListOr(vs[i].parameters)|;
        if vs[i].confidence.Some? {
          totalConfidence := totalConfidence + vs[i].confidence.value;
          confidenceCount := confidenceCount + 1;
        }
        i := i + 1;
      }
      assert vs[..i] == vs;
      OrderCardinality(State());
      var avgParams := if |vs| > 0 then totalParams as real / |vs| as real else 0.0;
      var avgConf := if confidenceCount > 0 then totalConfidence / confidenceCount as real else 0.0;
      st := Stats(|functions|, Distribution(functionTypeIndex), Distribution(executionTypeIndex),
                  Distribution(tacticCategoryIndex), |unitIndex.Keys|, avgParams, avgConf);
    }

    /**
     * `get_optimal_functions`: every entry scored by confidence (default 0.5)
     * and relevance, stably sorted by score, highest first, then `[:max_functions]`.
     */
    method GetOptimalFunctions(g: GameState, maxFunctions: int) returns (r: seq<Scored<(PrefabFunction, real)>>)
      requires Valid()
      ensures r == SliceTo(SortDesc(ScoreAll(Values(State()), g)), maxFunctions)
      ensures SortedDesc(r)
      ensures |r| <= |functions| && (maxFunctions >= 0 ==> |r| <= maxFunctions)
    {
      var vs := Values(State());
      OrderCardinality(State());
      OptimalFacts(vs, g, maxFunctions);
      if |vs| == 0 {
        return [];
      }
      var scored := ScoreEach(vs, g);
      r := SliceTo(SortDesc(scored), maxFunctions);
    }
  }

  /** The scoring loop of `get_optimal_functions`. */
  method ScoreEach(vs: seq<PrefabFunction>, g: GameState) returns (scored: seq<Scored<(PrefabFunction, real)>>)
    ensures scored == ScoreAll(vs, g)
  {
    scored := [];
    var i := 0;
    while i < |vs|
      invariant 0 <= i <= |vs|
      invariant scored == ScoreAll(vs[..i], g)
    {
      var e := ScoreEntry(vs[i], g);
      assert vs[..i + 1][..i] == vs[..i] && vs[..i + 1][i] == vs[i];
      assert ScoreAll(vs[..i + 1], g) == ScoreAll(vs[..i], g) + [e];
      scored := scored + [e];
      i := i + 1;
    }
    assert vs[..i] == vs;
  }

  lemma OrderCardinality(s: Store)
    requires OrderMatches(s)
    ensures |s.order| == |s.functions|
  {
    var ks := set i | 0 <= i < |s.order| :: s.order[i];
    assert ks == s.functions.Keys;
    DistinctCardinality(s.order);
  }

  lemma {:induction false} DistinctCardinality(xs: seq<string>)
    requires NoDuplicates(xs)
    ensures |set i | 0 <= i < |xs| :: xs[i]| == |xs|
    decreases |xs|
  {
    if xs != [] {
      var init := xs[..|xs| - 1];
      DistinctCardinality(init);
      var a := set i | 0 <= i < |init| :: init[i];
      var b := set i | 0 <= i < |xs| :: xs[i];
      assert b == a + {xs[|xs| - 1]};
      assert xs[|xs| - 1] !in a;
    }
  }

  /** The ranking is sorted, and holds at most one entry per stored function and at most `n` when `n >= 0`. */
  lemma OptimalFacts(vs: seq<PrefabFunction>, g: GameState, n: int)
    ensures var r := SliceTo(SortDesc(ScoreAll(vs, g)), n);
            SortedDesc(r) && |r| <= |vs| && (n >= 0 ==> |r| <= n)
  {
    SortDescCorrect(ScoreAll(vs, g));
    SlicePrefixSorted(SortDesc(ScoreAll(vs, g)), n);
  }

  /** A prefix of a descending sort is itself sorted. */
  lemma SlicePrefixSorted<T>(s: seq<Scored<T>>, n: int)
    requires SortedDesc(s)
    ensures SortedDesc(SliceTo(s, n))
  {
  }
}
