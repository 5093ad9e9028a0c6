/**
 * The low-poly nature model catalog: a constant table from model name to
 * the number of numbered variants and the material names, and the path
 * builder that turns a catalog entry into the list of glTF files to load.
 */
module Models {
  import opened Options

  /** Directory every model file lives in. */
  const BasePath: string := "/lowpoly_nature/"

  /** File extension of every model file. */
  const Extension: string := ".gltf"

  /**
   * A catalog entry. `versions` is the optional count of numbered variants;
   * JavaScript numbers are modelled by `int` so that a zero or negative
   * count can be stated.
   */
  datatype ModelEntry = ModelEntry(versions: Option<int>, materials: seq<string>)

  /** The result object `{ filePaths, materials }`. */
  datatype PathsAndMaterials = PathsAndMaterials(filePaths: seq<string>, materials: seq<string>)

  /** The only collection name the source declares. */
  datatype CollectionName = LowpolyNature

  /**
   * `lowPolyNatureCollectionModels`, in declaration order (which is the
   * order `Object.keys` reports for these non-numeric keys).
   */
  const LowPolyNatureCollectionModels: seq<(string, ModelEntry)> := [
    ("BirchTree", ModelEntry(Some(5), ["White", "Black", "DarkGreen", "Green"])),
    ("BirchTree_Dead", ModelEntry(Some(5), ["White", "Black"])),
    ("BirchTree_Dead_Snow", ModelEntry(Some(5), ["White", "Snow", "Black"])),
    ("BirchTree_Snow", ModelEntry(Some(5), ["White", "Black", "DarkGreen", "Green", "Snow"])),
    ("Bush", ModelEntry(Some(2), ["Green"])),
    ("Bush_Snow", ModelEntry(Some(2), ["Snow", "Green"])),
    ("BushBerries", ModelEntry(Some(2), ["Green", "Red"])),
    ("Cactus", ModelEntry(Some(5), ["Green", "LightOrange"])),
    ("CactusFlowers", ModelEntry(Some(5), ["Green", "Pink"])),
    ("CommonTree", ModelEntry(Some(5), ["Brown", "Green", "DarkGreen"])),
    ("CommonTree_Dead", ModelEntry(Some(5), ["Brown"])),
    ("CommonTree_Dead_Snow", ModelEntry(Some(5), ["Brown", "Snow"])),
    ("CommonTree_Snow", ModelEntry(Some(5), ["Brown", "Green", "Snow", "DarkGreen"])),
    ("Corn", ModelEntry(Some(2), ["Green", "Yellow"])),
    ("Flowers", ModelEntry(None, ["Green", "Cyan", "Yellow"])),
    ("Grass", ModelEntry(Some(3), ["Green"])),
    ("Lilypad", ModelEntry(None, ["Green", "Pink"])),
    ("PalmTree", ModelEntry(Some(4), ["Brown", "Green", "DarkGreen"])),
    ("PineTree", ModelEntry(Some(5), ["Brown", "Green"])),
    ("PineTree_Snow", ModelEntry(Some(5), ["Brown", "Green", "Snow"])),
    ("Plant", ModelEntry(Some(5), ["Brown", "Green", "DarkGreen", "Yellow", "Pink"])),
    ("Rock", ModelEntry(Some(7), ["Gray"])),
    ("Rock_Moss", ModelEntry(Some(7), ["Gray", "Green"])),
    ("Rock_Snow", ModelEntry(Some(7), ["Gray", "Snow"])),
    ("TreeStump_Moss", ModelEntry(None, ["Brown", "Green"])),
    ("TreeStump_Snow", ModelEntry(None, ["Brown", "Snow"])),
    ("TreeStump", ModelEntry(None, ["Brown", "LightBrown", "Green"])),
    ("Wheat", ModelEntry(None, ["Yellow"])),
    ("Willow", ModelEntry(Some(5), ["Brown", "DarkGreen"])),
    ("Willow_Dead", ModelEntry(Some(5), ["Brown"])),
    ("Willow_Dead_Snow", ModelEntry(Some(5), ["Brown", "Snow"])),
    ("Willow_Snow", ModelEntry(Some(5), ["Brown", "Snow", "DarkGreen"])),
    ("WoodLog_Moss", ModelEntry(None, ["Brown", "Green", "Mushroom_Top", "Mushroom_Bottom", "DarkGreen"])),
    ("WoodLog_Snow", ModelEntry(None, ["Brown", "Snow"])),
    ("WoodLog", ModelEntry(None, ["Brown", "Mushroom_Top", "Mushroom_Bottom"]))
  ]

  /** `collections[collection].models` */
  function CollectionModels(collection: CollectionName): seq<(string, ModelEntry)> {
    match collection
    case LowpolyNature => LowPolyNatureCollectionModels
  }

  /** The keys of a table, in order. */
  function KeysOf(table: seq<(string, ModelEntry)>): seq<string> {
    seq(|table|, i requires 0 <= i < |table| => table[i].0)
  }

  /** Own-property lookup in a table: the entry stored under `name`, if any. */
  function Find(table: seq<(string, ModelEntry)>, name: string): (r: Option<ModelEntry>)
    ensures r.Some? ==> (name, r.value) in table
  {
    if |table| == 0 then None
    else if table[0].0 == name then Some(table[0].1)
    else Find(table[1..], name)
  }

  /** A table lookup finds an entry exactly for the table's keys. */
  lemma {:induction false} FindSucceedsOnKeys(table: seq<(string, ModelEntry)>, name: string)
    ensures Find(table, name).Some? <==> name in KeysOf(table)
  {
    if |table| > 0 {
      FindSucceedsOnKeys(table[1..], name);
      assert KeysOf(table) == [table[0].0] + KeysOf(table[1..]);
    }
  }

  /** `getModels(collection)`: `Object.keys` of the collection's table. */
  function GetModels(collection: CollectionName := LowpolyNature): (names: seq<string>)
    ensures |names| == |CollectionModels(collection)|
  {
    KeysOf(CollectionModels(collection))
  }

  /**
   * Every name `getModels` reports resolves to a catalog entry, and every
   * name that resolves is one `getModels` reports.
   */
  lemma {:induction false} GetModelsAreExactlyTheResolvableNames(collection: CollectionName, name: string)
    ensures name in GetModels(collection) <==> Find(CollectionModels(collection), name).Some?
  {
    FindSucceedsOnKeys(CollectionModels(collection), name);
  }

  // ---------------------------------------------------------------------
  // Decimal rendering of the version number (`${i}` in a template literal)

  function DigitChar(d: nat): (c: char)
    requires d < 10
    ensures '0' <= c <= '9' && (c as int) - ('0' as int) == d
  {
    (('0' as int) + d) as char
  }

  predicate IsDigits(s: string) {
    forall i :: 0 <= i < |s| ==> '0' <= s[i] <= '9'
  }

  /** The decimal form of a natural number, without leading zeros. */
  function DecimalString(n: nat): (s: string)
    ensures |s| >= 1 && IsDigits(s)
    ensures n > 0 ==> s[0] != '0'
    decreases n
  {
    if n < 10 then [DigitChar(n)] else DecimalString(n / 10) + [DigitChar(n % 10)]
  }

  /** The number a string of decimal digits denotes. */
  function DecimalValue(s: string): nat
    requires IsDigits(s)
  {
    if |s| == 0 then 0
    else DecimalValue(s[..|s| - 1]) * 10 + ((s[|s| - 1] as int) - ('0' as int))
  }

  /** Reading back the decimal form of `n` gives `n`. */
  lemma {:induction false} DecimalRoundTrip(n: nat)
    ensures DecimalValue(DecimalString(n)) == n
    decreases n
  {
    var s := DecimalString(n);
    if n >= 10 {
      DecimalRoundTrip(n / 10);
      assert s[..|s| - 1] == DecimalString(n / 10);
    }
  }

  /** Distinct numbers have distinct decimal forms. */
  lemma {:induction false} DecimalStringInjective(j: nat, k: nat)
    requires DecimalString(j) == DecimalString(k)
    ensures j == k
  {
    DecimalRoundTrip(j);
    DecimalRoundTrip(k);
  }

  // ---------------------------------------------------------------------
  // Path construction

  /** `${basePath}${name}_${i}.gltf` */
  function VersionedPath(name: string, i: nat): string {
    BasePath + name + "_" + DecimalString(i) + Extension
  }

  /** `${basePath}${name}.gltf` */
  function SinglePath(name: string): string {
    BasePath + name + Extension
  }

  /** Different version numbers give different paths for the same model. */
  lemma {:induction false} VersionedPathInjective(name: string, j: nat, k: nat)
    requires VersionedPath(name, j) == VersionedPath(name, k)
    ensures j == k
  {
    var prefix := BasePath + name + "_";
    var pj, pk := VersionedPath(name, j), VersionedPath(name, k);
    assert pj == prefix + DecimalString(j) + Extension;
    assert pk == prefix + DecimalString(k) + Extension;
    assert |DecimalString(j)| == |DecimalString(k)|;
    var m := |prefix| + |DecimalString(j)|;
    assert pj[|prefix|..m] == DecimalString(j);
    assert pk[|prefix|..m] == DecimalString(k);
    DecimalStringInjective(j, k);
  }

  predicate EndsWith(s: string, suffix: string) {
    |suffix| <= |s| && s[|s| - |suffix|..] == suffix
  }

  /** JavaScript truthiness of the optional `versions` field. */
  predicate HasVersions(versions: Option<int>) {
    versions.Some? && versions.value != 0
  }

  /**
   * The path-building part of `getModelPathsAndMaterials`, once `model` has
   * been found: `n` numbered paths for a truthy `versions` of `n`, a single
   * unnumbered path otherwise, and the entry's materials unchanged.
   */
  method PathsAndMaterialsFor(name: string, model: ModelEntry) returns (r: PathsAndMaterials)
    ensures r.materials == model.materials
    ensures HasVersions(model.versions) ==>
      |r.filePaths| == (if model.versions.value > 0 then model.versions.value else 0) &&
      forall k :: 0 <= k < |r.filePaths| ==> r.filePaths[k] == VersionedPath(name, k + 1)
    ensures !HasVersions(model.versions) ==> r.filePaths == [SinglePath(name)]
    ensures forall p :: p in r.filePaths ==> BasePath <= p && EndsWith(p, Extension)
  {
    var filePaths: seq<string> := [];
    if HasVersions(model.versions) {
      var versions := model.versions.value;
      var i := 1;
      while i <= versions
        invariant 1 <= i && (versions > 0 ==> i <= versions + 1) && (versions <= 0 ==> i == 1)
        invariant |filePaths| == i - 1
        invariant forall k :: 0 <= k < |filePaths| ==> filePaths[k] == VersionedPath(name, k + 1)
        invariant forall p :: p in filePaths ==> BasePath <= p && EndsWith(p, Extension)
      {
        var path := VersionedPath(name, i);
        assert path == BasePath + (name + "_" + DecimalString(i) + Extension);
        assert path == (BasePath + name + "_" + DecimalString(i)) + Extension;
        filePaths := filePaths + [path];
        i := i + 1;
      }
    } else {
      var path := SinglePath(name);
      assert path == BasePath + (name + Extension);
      filePaths := [path];
    }
    r := PathsAndMaterials(filePaths, model.materials);
  }

  /**
   * `getModelPathsAndMaterials` over a given table: null for a name the
   * table does not hold; otherwise the paths and materials of its entry.
   */
  method LookupPathsAndMaterials(table: seq<(string, ModelEntry)>, name: string)
    returns (r: Option<PathsAndMaterials>)
    ensures r.None? <==> Find(table, name).None?
    ensures r.None? <==> name !in KeysOf(table)
    ensures r.Some? ==>
      var model := Find(table, name).value;
      && r.value.materials == model.materials
      && (HasVersions(model.versions) ==>
            |r.value.filePaths| == (if model.versions.value > 0 then model.versions.value else 0) &&
            forall k :: 0 <= k < |r.value.filePaths| ==> r.value.filePaths[k] == VersionedPath(name, k + 1))
      && (!HasVersions(model.versions) ==> r.value.filePaths == [SinglePath(name)])
    ensures r.Some? ==> forall p :: p in r.value.filePaths ==> BasePath <= p && EndsWith(p, Extension)
  {
    FindSucceedsOnKeys(table, name);
    var model := Find(table, name);
    if model.None? {
      return None;
    }
    var built := PathsAndMaterialsFor(name, model.value);
    r := Some(built);
  }

  /** `getModelPathsAndMaterials(name, collection)` */
  method GetModelPathsAndMaterials(name: string, collection: CollectionName := LowpolyNature)
    returns (r: Option<PathsAndMaterials>)
    ensures r.None? <==> Find(CollectionModels(collection), name).None?
    ensures r.None? <==> name !in GetModels(collection)
    ensures r.Some? ==>
      var model := Find(CollectionModels(collection), name).value;
      && r.value.materials == model.materials
      && (HasVersions(model.versions) ==>
            |r.value.filePaths| == (if model.versions.value > 0 then model.versions.value else 0) &&
            forall k :: 0 <= k < |r.value.filePaths| ==> r.value.filePaths[k] == VersionedPath(name, k + 1))
      && (!HasVersions(model.versions) ==> r.value.filePaths == [SinglePath(name)])
    ensures r.Some? ==> forall p :: p in r.value.filePaths ==> BasePath <= p && EndsWith(p, Extension)
  {
    r := LookupPathsAndMaterials(CollectionModels(collection), name);
  }

  // ---------------------------------------------------------------------
  // Property access as the source writes it

  /**
   * Members every object literal inherits from `Object.prototype`; reading
   * one of them from the catalog object yields a truthy value.
   */
  const ObjectPrototypeMembers: set<string> := {
    "constructor", "__proto__", "hasOwnProperty", "isPrototypeOf",
    "propertyIsEnumerable", "toLocaleString", "toString", "valueOf",
    "__defineGetter__", "__defineSetter__", "__lookupGetter__", "__lookupSetter__"
  }

  /** What `models[name]` evaluates to on a plain object literal. */
  datatype PropertyValue = OwnEntry(entry: ModelEntry) | InheritedMember | Undefined

  function PropertyAccess(table: seq<(string, ModelEntry)>, name: string): (r: PropertyValue)
    ensures r.Undefined? <==> Find(table, name).None? && name !in ObjectPrototypeMembers
  {
    match Find(table, name)
    case Some(entry) => OwnEntry(entry)
    case None => if name in ObjectPrototypeMembers then InheritedMember else Undefined
  }

  /**
   * The file paths of `getModelPathsAndMaterials` as written, where the
   * `!model` guard only rejects `undefined`: an inherited member has no
   * `versions`, so it takes the single-path branch.
   */
  function FilePathsAsWritten(table: seq<(string, ModelEntry)>, name: string): Option<seq<string>> {
    match PropertyAccess(table, name)
    case Undefined => None
    case InheritedMember => Some([SinglePath(name)])
    case OwnEntry(model) =>
      if HasVersions(model.versions) then
        Some(seq(if model.versions.value > 0 then model.versions.value else 0,
                 k requires k >= 0 => VersionedPath(name, k + 1)))
      else Some([SinglePath(name)])
  }

  /**
   * As written, a name the table does not hold but that `Object.prototype`
   * provides is not rejected: the lookup yields a single path.
   */
  lemma {:induction false} InheritedNameIsNotRejected(table: seq<(string, ModelEntry)>, name: string)
    requires name in ObjectPrototypeMembers && name !in KeysOf(table)
    ensures FilePathsAsWritten(table, name) == Some([SinglePath(name)])
  {
    FindSucceedsOnKeys(table, name);
  }

  /**
   * The concrete input: "toString" is not a catalog name but is inherited,
   * so as written its lookup is not null (see InheritedNameIsNotRejected).
   */
  lemma {:induction false} ToStringIsNotAModel()
    ensures "toString" !in GetModels()
    ensures "toString" in ObjectPrototypeMembers
    ensures SinglePath("toString") == "/lowpoly_nature/toString.gltf"
  {
    var names := GetModels();
    forall i | 0 <= i < |names| ensures names[i] != "toString" {
      assert names[i] == LowPolyNatureCollectionModels[i].0;
    }
  }

  /**
   * As written, looking up "toString" in the catalog yields one file path
   * instead of null, although `GetModelPathsAndMaterials` rejects it.
   */
  lemma {:induction false} ToStringLookupAsWritten()
    ensures FilePathsAsWritten(CollectionModels(LowpolyNature), "toString") ==
            Some(["/lowpoly_nature/toString.gltf"])
  {
    ToStringIsNotAModel();
    InheritedNameIsNotRejected(CollectionModels(LowpolyNature), "toString");
  }
}
