/**
 * The prefab loader of the prefab system: how a function file's JSON content is
 * reshaped into a list, how the files of a directory are chosen and filed by
 * race and type (both read from the file name), and the read-only queries over
 * the loaded catalog (lookup by id, and search by unit, race and type).
 */
module PrefabLoader {
  import opened Common
  import opened PrefabRecord

  // ------------------------------------------------------------ file content

  /** `_load_file` after `json.load`: a list, a `{'functions': L}` wrapper, a single object, or nothing. */
  function FileFunctions(data: Json): (r: Json)
    ensures data.JList? ==> r == data
    ensures data.JObj? && "functions" in data.fields ==> r == data.fields["functions"]
    ensures data.JObj? && "functions" !in data.fields ==> r == JList([data])
    ensures !data.JList? && !data.JObj? ==> r == JList([])
  {
    match data
    case JList(_) => data
    case JObj(fields) => if "functions" in fields then fields["functions"] else JList([data])
    case _ => JList([])
  }

  /**
   * Wrapping a list of functions in `{'functions': ...}` loads the same list,
   * and reshaping is idempotent on every shape that yields a list.
   */
  lemma FileFunctionsShapes(items: seq<Json>, data: Json)
    ensures FileFunctions(JObj(map["functions" := JList(items)])) == FileFunctions(JList(items)) == JList(items)
    ensures FileFunctions(data).JList? ==> FileFunctions(FileFunctions(data)) == FileFunctions(data)
  {
  }

  // ------------------------------------------------------------ file names

  predicate EndsWith(s: string, suffix: string)
  {
    |suffix| <= |s| && s[|s| - |suffix|..] == suffix
  }

  /** `os.path.basename`: the text after the last `/`. */
  function Basename(path: string): (r: string)
    ensures '/' !in r && EndsWith(path, r)
  {
    if path == [] || path[|path| - 1] == '/' then []
    else Basename(path[..|path| - 1]) + [path[|path| - 1]]
  }

  /** `_extract_race_from_filename`: terran is tried first, then protoss, then zerg. */
  function RaceFromFilename(path: string): (r: string)
    ensures var n := Lower(Basename(path));
      (r == "terran" <==> Contains(n, "terran")) &&
      (r == "protoss" <==> !Contains(n, "terran") && Contains(n, "protoss")) &&
      (r == "zerg" <==> !Contains(n, "terran") && !Contains(n, "protoss") && Contains(n, "zerg")) &&
      (r == "unknown" <==> !Contains(n, "terran") && !Contains(n, "protoss") && !Contains(n, "zerg"))
  {
    var n := Lower(Basename(path));
    if Contains(n, "terran") then "terran"
    else if Contains(n, "protoss") then "protoss"
    else if Contains(n, "zerg") then "zerg"
    else "unknown"
  }

  /** `_extract_type_from_filename`: synergy, then heterogeneous, then without_move, else standard. */
  function TypeFromFilename(path: string): (r: string)
    ensures var n := Lower(Basename(path));
      (r == "synergy" <==> Contains(n, "synergy")) &&
      (r == "heterogeneous" <==> !Contains(n, "synergy") && Contains(n, "heterogeneous")) &&
      (r == "without_move" <==> !Contains(n, "synergy") && !Contains(n, "heterogeneous") && Contains(n, "without_move")) &&
      (r == "standard" <==> !Contains(n, "synergy") && !Contains(n, "heterogeneous") && !Contains(n, "without_move"))
  {
    var n := Lower(Basename(path));
    if Contains(n, "synergy") then "synergy"
    else if Contains(n, "heterogeneous") then "heterogeneous"
    else if Contains(n, "without_move") then "without_move"
    else "standard"
  }

  /** `os.path.join(directory, name)` for a plain file name. */
  function PathJoin(directory: string, name: string): string
  {
    if directory == [] || directory[|directory| - 1] == '/' then directory + name else directory + "/" + name
  }

  /** Whether `_get_prefab_files` keeps a directory entry; an empty race keeps every JSON file. */
  predicate Wanted(name: string, race: string)
  {
    EndsWith(name, ".json") && (race == [] || Contains(Lower(name), Lower(race)))
  }

  /** `_get_prefab_files` over a directory listing (an absent directory lists nothing). */
  function PrefabFiles(directory: string, listing: seq<string>, race: string): (r: seq<string>)
    ensures |r| <= |listing|
  {
    if listing == [] then []
    else
      var rest := PrefabFiles(directory, listing[..|listing| - 1], race);
      var name := listing[|listing| - 1];
      if Wanted(name, race) then rest + [PathJoin(directory, name)] else rest
  }

  /** The chosen paths are exactly the joined names of the wanted entries. */
  lemma {:induction false} PrefabFilesExact(directory: string, listing: seq<string>, race: string, p: string)
    ensures p in PrefabFiles(directory, listing, race) <==>
      exists i :: 0 <= i < |listing| && Wanted(listing[i], race) && p == PathJoin(directory, listing[i])
  {
    if listing != [] {
      var init := listing[..|listing| - 1];
      var last := listing[|listing| - 1];
      var rest := PrefabFiles(directory, init, race);
      PrefabFilesExact(directory, init, race, p);
      if p in PrefabFiles(directory, listing, race) {
        if p in rest {
          var i :| 0 <= i < |init| && Wanted(init[i], race) && p == PathJoin(directory, init[i]);
          assert listing[i] == init[i];
        } else {
          assert Wanted(listing[|listing| - 1], race) && p == PathJoin(directory, listing[|listing| - 1]);
        }
      } else {
        forall i | 0 <= i < |listing| && Wanted(listing[i], race)
          ensures p != PathJoin(directory, listing[i])
        {
          if i < |init| {
            assert listing[i] == init[i];
          }
        }
      }
    }
  }

  // ------------------------------------------------------------ the catalog

  /** The dictionary `load_functions` returns: every function, by file race and by file type. */
  datatype Catalog = Catalog(
    all: seq<PrefabFunction>,
    byRace: map<string, seq<PrefabFunction>>,
    byType: map<string, seq<PrefabFunction>>)

  /**
   * One loaded file: its path, and its functions or the error that made the
   * loader skip it.
   */
  datatype LoadedFile = LoadedFile(path: string, content: Result<seq<PrefabFunction>>)

  function AddFile(c: Catalog, path: string, fs: seq<PrefabFunction>): Catalog
  {
    var race, kind := RaceFromFilename(path), TypeFromFilename(path);
    Catalog(c.all + fs,
            c.byRace[race := GetOr(c.byRace, race, []) + fs],
            c.byType[kind := GetOr(c.byType, kind, []) + fs])
  }

  /** `load_functions`: the files are filed in order; a file that failed to load is skipped. */
  function CatalogOf(files: seq<LoadedFile>): Catalog
  {
    if files == [] then Catalog([], map[], map[])
    else
      var c := CatalogOf(files[..|files| - 1]);
      var f := files[|files| - 1];
      if f.content.Ok? then AddFile(c, f.path, f.content.value) else c
  }

  /** The functions of the loaded files that pass `keep`, concatenated in file order. */
  function LoadedWhere(files: seq<LoadedFile>, keep: string -> bool): seq<PrefabFunction>
  {
    if files == [] then []
    else
      var f := files[|files| - 1];
      LoadedWhere(files[..|files| - 1], keep) + (if f.content.Ok? && keep(f.path) then f.content.value else [])
  }

  /**
   * `all` is every loaded file's functions in order; the list filed under a
   * race (a type) is exactly the functions of the files named for that race
   * (that type), in order.
   */
  lemma {:induction false} CatalogFiling(files: seq<LoadedFile>, race: string, kind: string)
    ensures CatalogOf(files).all == LoadedWhere(files, _ => true)
    ensures GetOr(CatalogOf(files).byRace, race, []) == LoadedWhere(files, p => RaceFromFilename(p) == race)
    ensures GetOr(CatalogOf(files).byType, kind, []) == LoadedWhere(files, p => TypeFromFilename(p) == kind)
  {
    if files != [] {
      CatalogFiling(files[..|files| - 1], race, kind);
    }
  }

  // ------------------------------------------------------------ queries

  /** The position of the first function whose `function_id` is `id`. */
  function FindById(fs: seq<PrefabFunction>, id: string): (r: Option<nat>)
    ensures r.Some? ==> r.value < |fs| && fs[r.value].functionId == Some(id)
    ensures r.Some? ==> forall j :: 0 <= j < r.value ==> fs[j].functionId != Some(id)
    ensures r.None? ==> forall j :: 0 <= j < |fs| ==> fs[j].functionId != Some(id)
  {
    if fs == [] then None
    else if fs[0].functionId == Some(id) then Some(0)
    else match FindById(fs[1..], id)
      case None => None
      case Some(k) => Some(k + 1)
  }

  /** `get_function_by_id`: the first function with that id, or `None`. */
  function GetFunctionById(c: Catalog, id: string): (r: Option<PrefabFunction>)
    ensures r.Some? <==> exists j :: 0 <= j < |c.all| && c.all[j].functionId == Some(id)
    ensures r.Some? ==> r.value.functionId == Some(id)
  {
    var k := FindById(c.all, id);
    if k.Some? then Some(c.all[k.value]) else None
  }

  /** Some listed name contains `unit` once lower-cased. */
  predicate AnyContains(names: seq<string>, unit: string)
  {
    names != [] && (Contains(Lower(names[0]), unit) || AnyContains(names[1..], unit))
  }

  /** `_unit_matches`: source unit, then the prerequisites, required, participating and listed units. */
  predicate UnitMatches(f: PrefabFunction, unit: string)
  {
    (f.sourceUnit.Some? && Contains(Lower(f.sourceUnit.value), unit)) ||
    AnyContains(ListOr(f.prereqUnits), unit) ||
    AnyContains(ListOr(f.requiredUnits), unit) ||
    AnyContains(ListOr(f.participatingUnits), unit) ||
    AnyContains(ListOr(f.units), unit)
  }

  /** Every unit name a function mentions. */
  function UnitNames(f: PrefabFunction): seq<string>
  {
    (if f.sourceUnit.Some? then [f.sourceUnit.value] else []) +
    ListOr(f.prereqUnits) + ListOr(f.requiredUnits) + ListOr(f.participatingUnits) + ListOr(f.units)
  }

  lemma {:induction false} AnyContainsIff(names: seq<string>, unit: string)
    ensures AnyContains(names, unit) <==> exists i :: 0 <= i < |names| && Contains(Lower(names[i]), unit)
  {
    if names != [] {
      AnyContainsIff(names[1..], unit);
      if exists i :: 0 <= i < |names| && Contains(Lower(names[i]), unit) {
        var i :| 0 <= i < |names| && Contains(Lower(names[i]), unit);
        if i > 0 {
          assert names[1..][i - 1] == names[i];
        }
      }
    }
  }

  lemma AnyContainsAppend(a: seq<string>, b: seq<string>, unit: string)
    ensures AnyContains(a + b, unit) <==> AnyContains(a, unit) || AnyContains(b, unit)
  {
    AnyContainsIff(a, unit);
    AnyContainsIff(b, unit);
    AnyContainsIff(a + b, unit);
    if AnyContains(b, unit) {
      var i :| 0 <= i < |b| && Contains(Lower(b[i]), unit);
      assert (a + b)[|a| + i] == b[i];
    }
    if AnyContains(a, unit) {
      var i :| 0 <= i < |a| && Contains(Lower(a[i]), unit);
      assert (a + b)[i] == a[i];
    }
  }

  /** A function matches a unit exactly when one of the unit names it mentions contains it. */
  lemma UnitMatchesIff(f: PrefabFunction, unit: string)
    ensures UnitMatches(f, unit) <==> exists i :: 0 <= i < |UnitNames(f)| && Contains(Lower(UnitNames(f)[i]), unit)
  {
    var src := if f.sourceUnit.Some? then [f.sourceUnit.value] else [];
    var a, b, c, d := ListOr(f.prereqUnits), ListOr(f.requiredUnits), ListOr(f.participatingUnits), ListOr(f.units);
    AnyContainsAppend(src, a, unit);
    AnyContainsAppend(src + a, b, unit);
    AnyContainsAppend(src + a + b, c, unit);
    AnyContainsAppend(src + a + b + c, d, unit);
    AnyContainsIff(UnitNames(f), unit);
    if f.sourceUnit.Some? {
      assert AnyContains(src, unit) <==> Contains(Lower(f.sourceUnit.value), unit);
    }
  }

  /** `_race_matches`: the race occurs in the lower-cased id or name. */
  predicate RaceMatches(f: PrefabFunction, race: string)
  {
    Contains(Lower(StrOr(f.functionId, "")), race) || Contains(Lower(StrOr(f.name, "")), race)
  }

  /** `_type_matches`: the function type, or any function with a synergy type when synergy is asked for. */
  predicate TypeMatches(f: PrefabFunction, kind: string)
  {
    Lower(StrOr(f.functionType, "")) == kind || (kind == "synergy" && f.synergyType.Some?)
  }

  /** The keyword arguments of `search_functions`; `None` for a criterion not given. */
  datatype Query = Query(unit: Option<string>, race: Option<string>, kind: Option<string>)

  /** Each given criterion is lower-cased, then checked. */
  predicate Matches(f: PrefabFunction, q: Query)
  {
    (q.unit.None? || UnitMatches(f, Lower(q.unit.value))) &&
    (q.race.None? || RaceMatches(f, Lower(q.race.value))) &&
    (q.kind.None? || TypeMatches(f, Lower(q.kind.value)))
  }

  /** The search loop over a list of functions. */
  function Filter(fs: seq<PrefabFunction>, q: Query): (r: seq<PrefabFunction>)
    ensures |r| <= |fs|
  {
    if fs == [] then []
    else Filter(fs[..|fs| - 1], q) + (if Matches(fs[|fs| - 1], q) then [fs[|fs| - 1]] else [])
  }

  /** `search_functions` over the catalog's `all` list. */
  function SearchFunctions(c: Catalog, q: Query): seq<PrefabFunction>
  {
    Filter(c.all, q)
  }

  /** With no criteria the search returns every function. */
  lemma {:induction false} SearchNoCriteria(fs: seq<PrefabFunction>)
    ensures Filter(fs, Query(None, None, None)) == fs
  {
    if fs != [] {
      SearchNoCriteria(fs[..|fs| - 1]);
    }
  }

  /** A function is in the result exactly when it is in the input and meets every given criterion. */
  lemma {:induction false} SearchMembers(fs: seq<PrefabFunction>, q: Query, f: PrefabFunction)
    ensures f in Filter(fs, q) <==> f in fs && Matches(f, q)
  {
    if fs != [] {
      SearchMembers(fs[..|fs| - 1], q, f);
      assert fs == fs[..|fs| - 1] + [fs[|fs| - 1]];
    }
  }

  /** The result keeps the input order: searching a concatenation concatenates the results. */
  lemma {:induction false} SearchAppend(a: seq<PrefabFunction>, b: seq<PrefabFunction>, q: Query)
    ensures Filter(a + b, q) == Filter(a, q) + Filter(b, q)
  {
    if b == [] {
      assert a + b == a;
    } else {
      assert (a + b)[..|a + b| - 1] == a + b[..|b| - 1];
      SearchAppend(a, b[..|b| - 1], q);
    }
  }

  function LowerOpt(o: Option<string>): Option<string>
  {
    if o.Some? then Some(Lower(o.value)) else None
  }

  /** The search ignores the case of the criteria. */
  lemma {:induction false} SearchIgnoresCase(fs: seq<PrefabFunction>, q: Query)
    ensures Filter(fs, q) == Filter(fs, Query(LowerOpt(q.unit), LowerOpt(q.race), LowerOpt(q.kind)))
  {
    if q.unit.Some? { LowerIdempotent(q.unit.value); }
    if q.race.Some? { LowerIdempotent(q.race.value); }
    if q.kind.Some? { LowerIdempotent(q.kind.value); }
    if fs != [] {
      SearchIgnoresCase(fs[..|fs| - 1], q);
    }
  }
}
