/**
 * The mock backend store (src/data/localStorage.ts): one serialized blob under
 * the storage key "app_data_modules", mapping each data module's name to the
 * module's exports (export name to value).
 *
 * The browser's key-value storage and the JSON layer are abstract: the stored
 * text is a `Slot`, and a write that the storage refuses is a `false`
 * `accepted` argument, after which the catch handler only logs.
 */
module MockStore {
  import opened Wrappers
  import opened RideTypes
  import opened Sequences

  /** The values kept in module exports: the two lists the app writes, and everything else. */
  datatype Value = Rides(rides: seq<Ride>) | Offers(offers: seq<Offer>) | Opaque(tag: string)

  type ModuleExports = map<string, Value>

  type Blob = map<string, ModuleExports>

  /**
   * What `localStorage.getItem("app_data_modules")` gives: nothing, the empty
   * string, text that does not parse to an object, or a serialized blob.
   */
  datatype Slot = Absent | Blank | Unreadable | Saved(blob: Blob)

  /** `getFromLocalStorage()`: the parsed blob, or `null` (here `None`); it never raises. */
  function Read(slot: Slot): (r: Option<Blob>)
    ensures r.None? <==> slot.Absent? || slot.Blank? || slot.Unreadable?
    ensures r.Some? ==> slot == Saved(r.value)
  {
    if slot.Saved? then Some(slot.blob) else None
  }

  /** `!storedData`: the seeding test, true for a missing or empty item only. */
  predicate IsEmptySlot(slot: Slot) {
    slot.Absent? || slot.Blank?
  }

  /** One data file found by the module glob; `exports` is `None` when importing it fails. */
  datatype FixtureFile = FixtureFile(path: string, exports: Option<ModuleExports>)

  /** The module name of a data file: one leading "./" and one trailing ".ts" removed. */
  function ModuleName(path: string): (name: string)
    ensures |name| <= |path|
  {
    var rest := if StartsWith(path, "./") then path[2..] else path;
    if EndsWith(rest, ".ts") then rest[..|rest| - 3] else rest
  }

  /** A data file "./<name>.ts" becomes module `name`, whatever `name` is. */
  lemma ModuleNameOfDataFile(name: string)
    ensures ModuleName("./" + name + ".ts") == name
  {
    var path := "./" + name + ".ts";
    assert path[..2] == "./";
    var rest := path[2..];
    assert rest == name + ".ts";
    assert rest[|rest| - 3..] == ".ts";
    assert rest[..|rest| - 3] == name;
  }

  /** A path without the prefix and the suffix is its own module name. */
  lemma ModuleNameOfPlainPath(path: string)
    requires !StartsWith(path, "./") && !EndsWith(path, ".ts")
    ensures ModuleName(path) == path
  {
  }

  /**
   * The modules of `files` loaded in order, each stored under its module name
   * (a later file with the same name overwrites); `None` once a load fails.
   */
  function Loaded(files: seq<FixtureFile>): Option<Blob>
  {
    if files == [] then Some(map[])
    else
      var last := files[|files| - 1];
      match Loaded(files[..|files| - 1])
      case None => None
      case Some(m) => if last.exports.None? then None else Some(m[ModuleName(last.path) := last.exports.value])
  }

  /** `getDataModules()`: the loaded modules, or the empty map when any load failed. */
  function DataModules(files: seq<FixtureFile>): Blob {
    Loaded(files).GetOr(map[])
  }

  predicate AllLoad(files: seq<FixtureFile>) {
    forall i :: 0 <= i < |files| ==> files[i].exports.Some?
  }

  /** Loading succeeds exactly when every file loads, and then every file's module is present. */
  lemma {:induction false} LoadedSucceeds(files: seq<FixtureFile>)
    ensures Loaded(files).Some? <==> AllLoad(files)
    ensures Loaded(files).Some? ==> forall i :: 0 <= i < |files| ==> ModuleName(files[i].path) in Loaded(files).value
  {
    if files != [] {
      var init := files[..|files| - 1];
      LoadedSucceeds(init);
      assert forall i :: 0 <= i < |init| ==> init[i] == files[i];
    }
  }

  /** One failing import empties the whole result; otherwise each module name present is some file's. */
  lemma DataModulesShape(files: seq<FixtureFile>)
    ensures !AllLoad(files) ==> DataModules(files) == map[]
    ensures AllLoad(files) ==> forall i :: 0 <= i < |files| ==> ModuleName(files[i].path) in DataModules(files)
  {
    LoadedSucceeds(files);
  }

  /** The module that a later file of the same name overwrites is gone; the last file's exports win. */
  lemma LastFileWins(files: seq<FixtureFile>)
    requires files != [] && AllLoad(files)
    ensures var name := ModuleName(files[|files| - 1].path);
            name in DataModules(files) && DataModules(files)[name] == files[|files| - 1].exports.value
  {
    LoadedSucceeds(files[..|files| - 1]);
    assert AllLoad(files[..|files| - 1]);
  }

  /** `getDataModules()` as its loop runs: fill the result file by file, give up with `{}` on a failed import. */
  method GetDataModules(files: seq<FixtureFile>) returns (result: Blob)
    ensures result == DataModules(files)
  {
    result := map[];
    for i := 0 to |files|
      invariant Loaded(files[..i]) == Some(result)
    {
      assert files[..i + 1][..i] == files[..i];
      match files[i].exports
      case None =>
        LoadedStaysFailed(files, i + 1);
        return map[];
      case Some(exports) =>
        result := result[ModuleName(files[i].path) := exports];
    }
    assert files[..|files|] == files;
  }

  lemma {:induction false} LoadedStaysFailed(files: seq<FixtureFile>, n: nat)
    requires n <= |files| && Loaded(files[..n]).None?
    ensures Loaded(files).None?
    decreases |files| - n
  {
    if n == |files| {
      assert files[..n] == files;
    } else {
      assert files[..n + 1][..n] == files[..n];
      LoadedStaysFailed(files, n + 1);
    }
  }

  /** `{...modules, ...additional}`: a top-level merge in which `additional` wins. */
  function Merge(modules: Blob, additional: Blob): (r: Blob)
    ensures r.Keys == modules.Keys + additional.Keys
    ensures forall name :: name in additional ==> r[name] == additional[name]
    ensures forall name :: name in modules && name !in additional ==> r[name] == modules[name]
  {
    modules + additional
  }

  /** The blob with property `key` of module `name` set to `v`, the module created when missing. */
  function SetProperty(blob: Blob, name: string, key: string, v: Value): Blob {
    var moduleData := if name in blob then blob[name] else map[];
    blob[name := moduleData[key := v]]
  }

  /** `saveToLocalStorage()`: writes the fixtures only when nothing is stored. */
  function SeedStep(slot: Slot, files: seq<FixtureFile>, accepted: bool): Slot {
    if IsEmptySlot(slot) && accepted then Saved(DataModules(files)) else slot
  }

  /** `syncWithAdditionalData(additional)`: the fixtures, overridden by `additional`; the stored blob is not consulted. */
  function SyncStep(slot: Slot, files: seq<FixtureFile>, additional: Blob, accepted: bool): Slot {
    if accepted then Saved(Merge(DataModules(files), additional)) else slot
  }

  /** `updateModuleProperty(name, key, v)`: a read-modify-write of the stored blob (`{}` when unreadable). */
  function UpdateStep(slot: Slot, name: string, key: string, v: Value, accepted: bool): Slot {
    if accepted then Saved(SetProperty(Read(slot).GetOr(map[]), name, key, v)) else slot
  }

  /** Seeding writes only into an empty slot. */
  lemma SeedOnlyWhenEmpty(slot: Slot, files: seq<FixtureFile>, accepted: bool)
    ensures SeedStep(slot, files, accepted) != slot ==> IsEmptySlot(slot)
    ensures !IsEmptySlot(slot) ==> SeedStep(slot, files, accepted) == slot
  {
  }

  /** Seeding twice is seeding once, and a seeded store is never seeded again. */
  lemma SeedIdempotent(slot: Slot, files: seq<FixtureFile>, accepted: bool, again: bool)
    ensures SeedStep(SeedStep(slot, files, accepted), files, accepted) == SeedStep(slot, files, accepted)
    ensures accepted ==> SeedStep(SeedStep(slot, files, accepted), files, again) == SeedStep(slot, files, accepted)
  {
  }

  /** After an update, reading gives back the value just written under `name` and `key`. */
  lemma UpdateThenRead(slot: Slot, name: string, key: string, v: Value)
    ensures Read(UpdateStep(slot, name, key, v, true)).Some?
    ensures var b := Read(UpdateStep(slot, name, key, v, true)).value; name in b && key in b[name] && b[name][key] == v
  {
  }

  /** An update leaves every other module, and every other property of `name`, as it was read. */
  lemma UpdateFrame(slot: Slot, name: string, key: string, v: Value)
    ensures var before := Read(slot).GetOr(map[]);
            var after := Read(UpdateStep(slot, name, key, v, true)).value;
            && after.Keys == before.Keys + {name}
            && (forall other :: other in before && other != name ==> after[other] == before[other])
            && (name in before ==> forall k :: k in before[name] && k != key ==> after[name][k] == before[name][k])
            && after[name].Keys == (if name in before then before[name].Keys else {}) + {key}
  {
  }

  /** On an empty (or unreadable) store an update writes exactly `{name: {key: v}}`, after which seeding never happens. */
  lemma UpdateOnEmpty(slot: Slot, name: string, key: string, v: Value, files: seq<FixtureFile>, accepted: bool)
    requires !slot.Saved?
    ensures UpdateStep(slot, name, key, v, true) == Saved(map[name := map[key := v]])
    ensures SeedStep(UpdateStep(slot, name, key, v, true), files, accepted) == UpdateStep(slot, name, key, v, true)
  {
  }

  /**
   * A sync stores the fixtures with each module of `additional` replacing the
   * fixture module of that name wholesale, whatever was stored before.
   */
  lemma SyncIgnoresStored(slot: Slot, other: Slot, files: seq<FixtureFile>, additional: Blob)
    ensures SyncStep(slot, files, additional, true) == SyncStep(other, files, additional, true)
    ensures var b := Read(SyncStep(slot, files, additional, true)).value;
            && b.Keys == DataModules(files).Keys + additional.Keys
            && (forall name :: name in additional ==> b[name] == additional[name])
            && (forall name :: name in DataModules(files) && name !in additional ==> b[name] == DataModules(files)[name])
  {
  }

  /** A write that the storage refuses leaves the stored state unchanged; no operation reports an error. */
  lemma RefusedWritesChangeNothing(slot: Slot, files: seq<FixtureFile>, additional: Blob, name: string, key: string, v: Value)
    ensures SeedStep(slot, files, false) == slot
    ensures SyncStep(slot, files, additional, false) == slot
    ensures UpdateStep(slot, name, key, v, false) == slot
  {
  }

  /** The store object the app's pages share. */
  class Store {
    var slot: Slot
    const fixtures: seq<FixtureFile>

    constructor (initial: Slot, fixtures: seq<FixtureFile>)
      ensures slot == initial && this.fixtures == fixtures
    {
      slot := initial;
      this.fixtures := fixtures;
    }

    /** `getFromLocalStorage()`. */
    function Load(): Option<Blob>
      reads this
    {
      Read(slot)
    }

    /** `saveToLocalStorage()`. */
    method SaveToLocalStorage(accepted: bool)
      modifies this
      ensures slot == SeedStep(old(slot), fixtures, accepted)
    {
      if IsEmptySlot(slot) {
        var modules := GetDataModules(fixtures);
        if accepted {
          slot := Saved(modules);
        }
      }
    }

    /** `syncWithAdditionalData(additional)`. */
    method SyncWithAdditionalData(additional: Blob, accepted: bool)
      modifies this
      ensures slot == SyncStep(old(slot), fixtures, additional, accepted)
    {
      var modules := GetDataModules(fixtures);
      var merged := Merge(modules, additional);
      if accepted {
        slot := Saved(merged);
      }
    }

    /** `updateModuleProperty(name, key, v)`. */
    method UpdateModuleProperty(name: string, key: string, v: Value, accepted: bool)
      modifies this
      ensures slot == UpdateStep(old(slot), name, key, v, accepted)
    {
      var stored := Load().GetOr(map[]);
      var moduleData := if name in stored then stored[name] else map[];
      stored := stored[name := moduleData[key := v]];
      if accepted {
        slot := Saved(stored);
      }
    }
  }
}
