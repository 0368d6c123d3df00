/**
 * The per-function clean-up of the prefab function migration script
 * (`PrefabFunctionMigrator`): each function is a JSON dictionary that the
 * migrator edits in place. Redundant `synergy_type` is dropped, missing
 * fields get their defaults, enumerated fields are forced into their valid
 * sets and an empty id is replaced by a generated one. Afterwards the list
 * of migrated functions is filtered by the schema validator in place.
 *
 * Each method is proved against a function on the dictionary's contents;
 * the lemmas state what the migration promises about those functions.
 */
module Migrate {
  import opened Common

  // ---------------------------------------------------------------- field defaults

  /** `required_fields` of `_standardize_fields`, in the order they are visited. */
  const RequiredKeys: seq<string> := [
    "function_id", "function_type", "name", "description",
    "strategy_description", "tactic_category", "linkage_type",
    "execution_type", "execution_flow"
  ]

  /** The required fields that receive a default when absent; the other four are left missing. */
  predicate HasDefault(key: string)
  {
    key == "strategy_description" || key == "tactic_category" || key == "linkage_type" ||
    key == "execution_type" || key == "execution_flow"
  }

  /** The default of a missing field, read from the dictionary as it is at that moment. */
  function DefaultFor(m: map<string, Json>, key: string): Json
    requires HasDefault(key)
  {
    if key == "strategy_description" then GetOr(m, "description", JStr(""))
    else if key == "tactic_category" then JStr("offense")
    else if key == "linkage_type" then GetOr(m, "function_type", JStr("interaction"))
    else if key == "execution_type" then JStr("attack")
    else JList([])
  }

  /** The dictionary after the loop over `keys` has filled in the missing defaults. */
  function Filled(m: map<string, Json>, keys: seq<string>): map<string, Json>
    decreases |keys|
  {
    if keys == [] then m
    else
      var before := Filled(m, keys[..|keys| - 1]);
      var key := keys[|keys| - 1];
      if key !in before && HasDefault(key) then before[key := DefaultFor(before, key)] else before
  }

  /** `synergy_type` is dropped when `linkage_type` is already there. */
  function DropRedundant(m: map<string, Json>): map<string, Json>
  {
    if "synergy_type" in m && "linkage_type" in m then m - {"synergy_type"} else m
  }

  // ---------------------------------------------------------------- enumerations

  const FunctionTypes: seq<string> := ["interaction", "combination", "association", "invocation", "dependency"]

  const TacticCategories: seq<string> := [
    "offense", "defense", "support", "heterogeneous_coordination",
    "air_ground_coordination", "long_short_range_coordination",
    "stealth_synergy", "armor_type_coordination",
    "target_priority_coordination", "mobility_control_coordination",
    "formation_control_coordination"
  ]

  const ExecutionTypes: seq<string> := [
    "attack", "ability", "move", "coordinated_advance",
    "combined_assault", "fortified_position", "ambush_attack",
    "frontal_assault", "focused_assault", "mobile_defense",
    "spread_formation", "hit_and_run", "concurrent",
    "sequential", "parallel"
  ]

  /** `func.get(key) in valid`: only a string listed in `valid` qualifies. */
  predicate IsOneOf(m: map<string, Json>, key: string, valid: seq<string>)
  {
    key in m && m[key].JStr? && m[key].s in valid
  }

  function Enforce(m: map<string, Json>, key: string, valid: seq<string>, fallback: string): map<string, Json>
  {
    if IsOneOf(m, key, valid) then m else m[key := JStr(fallback)]
  }

  /** The dictionary after `_standardize_enums`. */
  function Enums(m: map<string, Json>): map<string, Json>
  {
    var a := Enforce(m, "function_type", FunctionTypes, "interaction");
    var b := Enforce(a, "tactic_category", TacticCategories, "offense");
    Enforce(b, "execution_type", ExecutionTypes, "attack")
  }

  /** The three fields `_standardize_enums` may rewrite. */
  predicate IsEnumKey(key: string)
  {
    key == "function_type" || key == "tactic_category" || key == "execution_type"
  }

  predicate EnumsValid(m: map<string, Json>)
  {
    IsOneOf(m, "function_type", FunctionTypes) &&
    IsOneOf(m, "tactic_category", TacticCategories) &&
    IsOneOf(m, "execution_type", ExecutionTypes)
  }

  /** The dictionary after `_standardize_fields`. */
  function Standardized(m: map<string, Json>): map<string, Json>
  {
    Enums(Filled(DropRedundant(m), RequiredKeys))
  }

  /** `_organize_by_linkage_type`. */
  function Organized(m: map<string, Json>): map<string, Json>
  {
    if "function_type" in m && "linkage_type" !in m then m["linkage_type" := m["function_type"]] else m
  }

  // ---------------------------------------------------------------- function ids

  /** The race found in an id by `'TERRAN' in function_id` and so on; `in` raises on a non-container. */
  function RaceOf(id: Json): Result<string>
  {
    match PyIn(id, "TERRAN")
    case Err(e) => Err(e)
    case Ok(terran) =>
      if terran then Ok("TERRAN")
      else match PyIn(id, "PROTOSS")
        case Err(e) => Err(e)
        case Ok(protoss) =>
          if protoss then Ok("PROTOSS")
          else match PyIn(id, "ZERG")
            case Err(e) => Err(e)
            case Ok(zerg) => Ok(if zerg then "ZERG" else "UNKNOWN")
  }

  /** `func.get('linkage_type', 'interaction').upper()`, with `ADVANCED_SYNERGY` shortened. */
  function LinkageLabel(m: map<string, Json>): Result<string>
  {
    match GetOr(m, "linkage_type", JStr("interaction"))
    case JStr(t) =>
      var u := Upper(t);
      Ok(if u == "ADVANCED_SYNERGY" then "SYNERGY" else u)
    case _ => Err("AttributeError: no upper()")
  }

  /**
   * The dictionary after `_standardize_function_id`, or the error it raises.
   * `suffix` stands for the first eight characters of a fresh UUID, upper-cased.
   */
  function WithId(m: map<string, Json>, suffix: string): Result<map<string, Json>>
  {
    var id := GetOr(m, "function_id", JStr(""));
    var race := RaceOf(id);
    var link := LinkageLabel(m);
    if race.Err? then Err(race.error)
    else if link.Err? then Err(link.error)
    else if Truthy(id) then Ok(m)
    else Ok(m["function_id" := JStr(GeneratedId(race.value, link.value, suffix))])
  }

  /** `f"{race}_{linkage_type}_{suffix}"`. */
  function GeneratedId(race: string, link: string, suffix: string): string
  {
    race + "_" + link + "_" + suffix
  }

  // ---------------------------------------------------------------- the dictionary

  /** One prefab function dictionary, edited in place by the migrator. */
  class FunctionDict {
    var fields: map<string, Json>

    constructor (fields: map<string, Json>)
      ensures this.fields == fields
    {
      this.fields := fields;
    }

    /** `_standardize_enums`. */
    method StandardizeEnums()
      modifies this
      ensures fields == Enums(old(fields))
    {
      if !IsOneOf(fields, "function_type", FunctionTypes) {
        fields := fields["function_type" := JStr("interaction")];
      }
      if !IsOneOf(fields, "tactic_category", TacticCategories) {
        fields := fields["tactic_category" := JStr("offense")];
      }
      if !IsOneOf(fields, "execution_type", ExecutionTypes) {
        fields := fields["execution_type" := JStr("attack")];
      }
    }

    /** `_standardize_fields`: drop the redundant field, fill in defaults, then fix the enumerations. */
    method StandardizeFields()
      modifies this
      ensures fields == Standardized(old(fields))
    {
      if "synergy_type" in fields && "linkage_type" in fields {
        fields := fields - {"synergy_type"};
      }
      ghost var dropped := fields;
      for i := 0 to |RequiredKeys|
        invariant fields == Filled(dropped, RequiredKeys[..i])
      {
        assert RequiredKeys[..i + 1][..i] == RequiredKeys[..i];
        FillDefault(RequiredKeys[i]);
      }
      assert RequiredKeys[..|RequiredKeys|] == RequiredKeys;
      StandardizeEnums();
    }

    /** One turn of the loop of `_standardize_fields`: a missing field gets its default, if it has one. */
    method FillDefault(key: string)
      modifies this
      ensures fields == if key !in old(fields) && HasDefault(key) then old(fields)[key := DefaultFor(old(fields), key)]
                        else old(fields)
    {
      if key !in fields {
        if key == "strategy_description" {
          fields := fields[key := GetOr(fields, "description", JStr(""))];
        } else if key == "tactic_category" {
          fields := fields[key := JStr("offense")];
        } else if key == "linkage_type" {
          fields := fields[key := GetOr(fields, "function_type", JStr("interaction"))];
        } else if key == "execution_type" {
          fields := fields[key := JStr("attack")];
        } else if key == "execution_flow" {
          fields := fields[key := JList([])];
        }
      }
    }

    /** `_organize_by_linkage_type`. */
    method OrganizeByLinkageType()
      modifies this
      ensures fields == Organized(old(fields))
    {
      if "function_type" in fields && "linkage_type" !in fields {
        fields := fields["linkage_type" := fields["function_type"]];
      }
    }

    /** `_standardize_function_id`; `raised` reports the exception, which leaves the dictionary as it was. */
    method StandardizeFunctionId(suffix: string) returns (raised: bool)
      modifies this
      ensures raised <==> WithId(old(fields), suffix).Err?
      ensures raised ==> fields == old(fields)
      ensures !raised ==> fields == WithId(old(fields), suffix).value
    {
      var id := GetOr(fields, "function_id", JStr(""));
      var race := RaceOf(id);
      if race.Err? {
        return true;
      }
      var link := LinkageLabel(fields);
      if link.Err? {
        return true;
      }
      if !Truthy(id) {
        fields := fields["function_id" := JStr(GeneratedId(race.value, link.value, suffix))];
      }
      return false;
    }
  }

  /** `_migrate_function`: a copy of `func`, standardised, organised and given an id. */
  method MigrateFunction(func: FunctionDict, suffix: string) returns (migrated: FunctionDict, raised: bool)
    ensures fresh(migrated)
    ensures raised <==> WithId(Standardized(func.fields), suffix).Err?
    ensures !raised ==> migrated.fields == WithId(Standardized(func.fields), suffix).value
  {
    migrated := new FunctionDict(func.fields);
    migrated.StandardizeFields();
    migrated.OrganizeByLinkageType();
    OrganizeAfterStandardize(func.fields);
    raised := migrated.StandardizeFunctionId(suffix);
  }

  // ---------------------------------------------------------------- validation

  /** The list of functions that `_validate_functions` filters in place. */
  class FunctionList {
    var items: seq<FunctionDict>

    constructor (items: seq<FunctionDict>)
      ensures this.items == items
    {
      this.items := items;
    }
  }

  /** The functions the validator accepts, in their order. */
  function Accepted(items: seq<FunctionDict>, accepts: map<string, Json> -> bool): seq<FunctionDict>
    reads items
  {
    if items == [] then []
    else
      var init := Accepted(items[..|items| - 1], accepts);
      var last := items[|items| - 1];
      if accepts(last.fields) then init + [last] else init
  }

  /**
   * `_validate_functions`: keeps only the functions `accepts` (the schema
   * validator) passes and answers whether any remain.
   */
  method ValidateFunctions(list: FunctionList, accepts: map<string, Json> -> bool) returns (ok: bool)
    modifies list
    ensures list.items == Accepted(old(list.items), accepts)
    ensures ok <==> list.items != []
  {
    var functions := list.items;
    var valid: seq<FunctionDict> := [];
    for i := 0 to |functions|
      invariant valid == Accepted(functions[..i], accepts)
    {
      assert functions[..i + 1][..i] == functions[..i];
      if accepts(functions[i].fields) {
        valid := valid + [functions[i]];
      }
    }
    assert functions[..|functions|] == functions;
    list.items := valid;
    ok := |list.items| > 0;
  }

  // ---------------------------------------------------------------- properties

  /** Filling in defaults keeps every present field as it was and adds exactly the missing defaulted ones. */
  lemma {:induction false} FilledFields(m: map<string, Json>, keys: seq<string>)
    ensures forall k :: k in m ==> k in Filled(m, keys) && Filled(m, keys)[k] == m[k]
    ensures forall k :: k in Filled(m, keys) ==> k in m || (k in keys && HasDefault(k))
    ensures forall k :: k in keys && HasDefault(k) ==> k in Filled(m, keys)
    decreases |keys|
  {
    if keys != [] {
      var init := keys[..|keys| - 1];
      FilledFields(m, init);
      assert keys == init + [keys[|keys| - 1]];
    }
  }

  /** After `_standardize_enums` the three enumerated fields hold valid values; nothing else changes. */
  lemma EnumsEffect(m: map<string, Json>)
    ensures EnumsValid(Enums(m))
    ensures Enums(m).Keys == m.Keys + {"function_type", "tactic_category", "execution_type"}
    ensures forall k :: k in m && !IsEnumKey(k) ==> Enums(m)[k] == m[k]
    ensures forall k :: k in m && IsEnumKey(k) && EnumsValid(m) ==> Enums(m)[k] == m[k]
  {
    assert "interaction" in FunctionTypes;
    assert "offense" in TacticCategories;
    assert "attack" in ExecutionTypes;
  }

  /** A valid value is never rewritten, so `_standardize_enums` is idempotent. */
  lemma EnumsIdempotent(m: map<string, Json>)
    ensures Enums(Enums(m)) == Enums(m)
  {
    EnumsEffect(m);
    var e := Enums(m);
    assert Enforce(e, "function_type", FunctionTypes, "interaction") == e;
    assert Enforce(e, "tactic_category", TacticCategories, "offense") == e;
    assert Enforce(e, "execution_type", ExecutionTypes, "attack") == e;
  }

  /** After `_standardize_fields` the five defaulted fields exist and the enumerations are valid. */
  lemma StandardizedFields(m: map<string, Json>)
    ensures var s := Standardized(m);
      "strategy_description" in s && "tactic_category" in s && "linkage_type" in s &&
      "execution_type" in s && "execution_flow" in s && EnumsValid(s)
  {
    var f := Filled(DropRedundant(m), RequiredKeys);
    FilledFields(DropRedundant(m), RequiredKeys);
    assert RequiredKeys[4] == "strategy_description" && RequiredKeys[6] == "linkage_type";
    assert RequiredKeys[8] == "execution_flow";
    EnumsEffect(f);
  }

  /** `synergy_type` goes only when `linkage_type` was already there; otherwise it is kept. */
  lemma StandardizedSynergy(m: map<string, Json>)
    ensures "synergy_type" in m && "linkage_type" in m ==> "synergy_type" !in Standardized(m)
    ensures "synergy_type" in m && "linkage_type" !in m ==>
      "synergy_type" in Standardized(m) && Standardized(m)["synergy_type"] == m["synergy_type"]
  {
    var d := DropRedundant(m);
    var f := Filled(d, RequiredKeys);
    FilledFields(d, RequiredKeys);
    assert !HasDefault("synergy_type");
    assert "synergy_type" !in RequiredKeys;
    EnumsEffect(f);
  }

  /** Fields outside the enumerations keep their values; only defaults are added. */
  lemma StandardizedKeeps(m: map<string, Json>, k: string)
    requires k in m && k != "synergy_type" && !IsEnumKey(k)
    ensures k in Standardized(m) && Standardized(m)[k] == m[k]
  {
    var d := DropRedundant(m);
    FilledFields(d, RequiredKeys);
    EnumsEffect(Filled(d, RequiredKeys));
  }

  /** `_organize_by_linkage_type` has nothing left to do after `_standardize_fields`. */
  lemma OrganizeAfterStandardize(m: map<string, Json>)
    ensures Organized(Standardized(m)) == Standardized(m)
  {
    StandardizedFields(m);
  }

  /** The race test raises exactly on a value `in` cannot search. */
  lemma RaceOfRaises(id: Json)
    ensures RaceOf(id).Err? <==> !(id.JStr? || id.JList? || id.JObj?)
  {
    if id.JStr? || id.JList? || id.JObj? {
      assert PyIn(id, "TERRAN").Ok? && PyIn(id, "PROTOSS").Ok? && PyIn(id, "ZERG").Ok?;
    }
  }

  /** `_standardize_function_id` raises exactly when the id is not a container or the linkage is not a string. */
  lemma WithIdRaises(m: map<string, Json>, suffix: string)
    ensures var id := GetOr(m, "function_id", JStr(""));
      WithId(m, suffix).Err? <==>
        !(id.JStr? || id.JList? || id.JObj?) || !GetOr(m, "linkage_type", JStr("interaction")).JStr?
  {
    RaceOfRaises(GetOr(m, "function_id", JStr("")));
    LinkageLabelRaises(m);
  }

  lemma LinkageLabelRaises(m: map<string, Json>)
    ensures LinkageLabel(m).Err? <==> !GetOr(m, "linkage_type", JStr("interaction")).JStr?
  {
  }

  /**
   * An id is generated only when the old one is falsy, and a falsy id names
   * no race, so every generated id reads `UNKNOWN_<LINKAGE>_<suffix>`: the race
   * detection never contributes to a generated id.
   */
  lemma GeneratedIdIsUnknownRace(m: map<string, Json>, suffix: string)
    requires WithId(m, suffix).Ok?
    requires !Truthy(GetOr(m, "function_id", JStr("")))
    ensures WithId(m, suffix).value ==
      m["function_id" := JStr(GeneratedId("UNKNOWN", LinkageLabel(m).value, suffix))]
  {
    var id := GetOr(m, "function_id", JStr(""));
    assert id.JStr? || id.JList? || id.JObj?;
    if id.JStr? {
      assert id.s == [];
      assert !IsPrefix("TERRAN", []) && !IsPrefix("PROTOSS", []) && !IsPrefix("ZERG", []);
    }
    assert PyIn(id, "TERRAN") == Ok(false);
    assert PyIn(id, "PROTOSS") == Ok(false);
    assert PyIn(id, "ZERG") == Ok(false);
    assert RaceOf(id) == Ok("UNKNOWN");
  }

  /** The two outcomes of a call that does not raise. */
  lemma WithIdValue(m: map<string, Json>, suffix: string)
    requires WithId(m, suffix).Ok?
    ensures var id := GetOr(m, "function_id", JStr(""));
      RaceOf(id).Ok? && LinkageLabel(m).Ok? &&
      WithId(m, suffix).value ==
        if Truthy(id) then m
        else m["function_id" := JStr(GeneratedId(RaceOf(id).value, LinkageLabel(m).value, suffix))]
  {
  }

  /** Setting an empty id to a non-empty string touches no other field. */
  lemma IdUpdate(m: map<string, Json>, newId: string, r: map<string, Json>)
    requires newId != []
    requires r == if Truthy(GetOr(m, "function_id", JStr(""))) then m else m["function_id" := JStr(newId)]
    ensures "function_id" in r && Truthy(r["function_id"])
    ensures r.Keys == m.Keys + {"function_id"}
    ensures forall k :: k in m && k != "function_id" ==> r[k] == m[k]
  {
  }

  /** The id changes only when it is empty, and then to a non-empty generated one; nothing else changes. */
  lemma WithIdChangesOnlyEmptyId(m: map<string, Json>, suffix: string)
    requires WithId(m, suffix).Ok?
    ensures var id := GetOr(m, "function_id", JStr("")); var r := WithId(m, suffix).value;
      (Truthy(id) ==> r == m) &&
      "function_id" in r && Truthy(r["function_id"]) &&
      r.Keys == m.Keys + {"function_id"} &&
      forall k :: k in m && k != "function_id" ==> r[k] == m[k]
  {
    var id := GetOr(m, "function_id", JStr(""));
    WithIdValue(m, suffix);
    var g := GeneratedId(RaceOf(id).value, LinkageLabel(m).value, suffix);
    assert |g| > |RaceOf(id).value|;
    IdUpdate(m, g, WithId(m, suffix).value);
  }

  /** A generated id is kept by a second pass, whatever suffix that pass would draw. */
  lemma WithIdStable(m: map<string, Json>, first: string, second: string)
    requires WithId(m, first).Ok?
    ensures WithId(WithId(m, first).value, second) == WithId(m, first)
  {
    var r := WithId(m, first).value;
    WithIdChangesOnlyEmptyId(m, first);
    WithIdRaises(m, first);
    assert GetOr(r, "linkage_type", JStr("interaction")) == GetOr(m, "linkage_type", JStr("interaction"));
    assert GetOr(r, "function_id", JStr("")).JStr? || GetOr(r, "function_id", JStr("")).JList? ||
           GetOr(r, "function_id", JStr("")).JObj?;
    WithIdRaises(r, second);
    WithIdValue(r, second);
  }

  /** `_validate_functions` keeps exactly the accepted functions. */
  lemma {:induction false} AcceptedExact(items: seq<FunctionDict>, accepts: map<string, Json> -> bool, f: FunctionDict)
    ensures f in Accepted(items, accepts) <==> f in items && accepts(f.fields)
    ensures |Accepted(items, accepts)| <= |items|
    decreases |items|
  {
    if items != [] {
      var init := items[..|items| - 1];
      AcceptedExact(init, accepts, f);
      assert items == init + [items[|items| - 1]];
    }
  }
}
