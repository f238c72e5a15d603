/** `ClientCacheManager` from scripts/clients/caching/cachemanager.py: cache
    entries stored in hash-partitioned JSON files.

    The JSON files on disk are a `JsonStore` object whose `files` map a path to
    the dictionary stored there. `load_from_json` (utils.py) returns `{}` for a
    missing file, and the model assumes every stored file decodes;
    `save_to_json` replaces the file's dictionary. The entry classes' `to_dict`/`from_dict`
    (cacheschema.py is not part of this model) are parameters, `from_dict`
    answering `None` where it would raise. */
module CacheManager {
  import opened Wrappers
  import opened Text
  import opened Hashing
  import opened Json

  /** The class handed to the manager as `cache_type`: the one supported entry
      class, another `CacheEntry` subclass, or a type that is not one at all. */
  datatype CacheType =
    | SummaryCacheEntry
    | OtherEntryType(name: string)
    | NotAnEntryType(name: string)

  function TypeName(t: CacheType): string {
    match t
    case SummaryCacheEntry => "SummaryCacheEntry"
    case OtherEntryType(n) => n
    case NotAnEntryType(n) => n
  }

  /** A cache entry: its class, the source file and client it belongs to, and
      whatever else `to_dict` serialises. */
  datatype CacheEntry = CacheEntry(entryType: CacheType, sourceFile: string, client: string, fields: Dict)

  /** The manager's configuration: `cache_paths` from the configuration file,
      and the digest used for partitioning. */
  datatype CacheSettings = CacheSettings(cachePaths: map<string, string>, md5: string -> nat)

  /** The partition count `get_partition_path` is called with (its default). */
  const PartitionCount := 50

  /** The JSON files on disk. */
  class JsonStore {
    var files: map<string, Dict>

    constructor(files: map<string, Dict>)
      ensures this.files == files
    {
      this.files := files;
    }

    /** `load_from_json(path)`: the stored dictionary, `{}` when there is none. */
    function Load(path: string): (d: Dict)
      reads this
      ensures path in files ==> d == files[path]
      ensures path !in files ==> d == map[]
    {
      if path in files then files[path] else map[]
    }

    /** `save_to_json(data, path)`. */
    method Save(data: Dict, path: string)
      modifies this
      ensures files == old(files)[path := data]
    {
      files := files[path := data];
    }
  }

  /** `get_cache_directory`: the configured "summary" directory for
      `SummaryCacheEntry`, nothing for any other class or a non-entry type. */
  function GetCacheDirectory(mgr: CacheSettings, t: CacheType): (r: Option<string>)
    ensures t == SummaryCacheEntry && "summary" in mgr.cachePaths ==> r == Some(mgr.cachePaths["summary"])
    ensures t != SummaryCacheEntry || "summary" !in mgr.cachePaths ==> r == None
  {
    if t.NotAnEntryType? then None
    else if t == SummaryCacheEntry then
      if "summary" in mgr.cachePaths then Some(mgr.cachePaths["summary"]) else None
    else None
  }

  /** `f"{source_file}#{client}"`, the key both the writer and the reader use.
      When the source file holds no `#`, the key's first `#` comes right after
      it, so the key gives back both parts. */
  function CacheKey(sourceFile: string, client: string): (r: string)
    ensures |r| == |sourceFile| + 1 + |client|
    ensures r[|sourceFile|] == '#' && r[..|sourceFile|] == sourceFile && r[|sourceFile| + 1..] == client
  {
    sourceFile + "#" + client
  }

  function DirArgument(dir: Option<string>): PyValue {
    if dir.Some? then PyStr(dir.value) else PyNone
  }

  /** The partition file for a key and an entry class: `get_partition_path` with
      the class's directory and its lower-cased name. */
  function EntryPath(mgr: CacheSettings, t: CacheType, key: string): (r: Result<string, ArgError>)
    ensures r.Ok? <==> !AllSpace(key) && GetCacheDirectory(mgr, t).Some? && !AllSpace(GetCacheDirectory(mgr, t).value)
    ensures r.Ok? ==> EndsWith(r.value, ".json")
  {
    var dir := DirArgument(GetCacheDirectory(mgr, t));
    var name := Lower(TypeName(t));
    SummaryBaseNameNotBlank();
    assert ValidArgs(PyStr(key), dir, PyStr(name), PyInt(PartitionCount)) <==>
      !AllSpace(key) && GetCacheDirectory(mgr, t).Some? && !AllSpace(GetCacheDirectory(mgr, t).value);
    var r := GetPartitionPath(mgr.md5, PyStr(key), dir, PyStr(name), PyInt(PartitionCount));
    if r.Ok? then
      var file := BuildPartitionFilename(name, mgr.md5(key) % PartitionCount);
      EndsWithTransitive(r.value, file, ".json");
      r
    else r
  }

  lemma EndsWithTransitive(s: string, t: string, u: string)
    requires EndsWith(s, t) && EndsWith(t, u)
    ensures EndsWith(s, u)
  {
    assert s[|s| - |u|..] == s[|s| - |t|..][|t| - |u|..];
  }

  /** The store once `data` has been put under `key` in the file at `path`. */
  function StorePut(files: map<string, Dict>, path: string, key: string, data: JsonValue): map<string, Dict> {
    var cacheData := if path in files then files[path] else map[];
    files[path := cacheData[key := data]]
  }

  /** What the file at `path` holds under `key`, if anything. */
  function StoreGet(files: map<string, Dict>, path: string, key: string): Option<JsonValue> {
    var cacheData := if path in files then files[path] else map[];
    if key in cacheData then Some(cacheData[key]) else None
  }

  /** `cache_entry`: compute the partition path (raising when the entry class
      has no directory), load that file, set `cache_data[cache_key]` and save. */
  method CacheEntryInStore(mgr: CacheSettings, store: JsonStore, data: CacheEntry, toDict: CacheEntry -> Dict)
    returns (r: Outcome<ArgError>)
    modifies store
    ensures EntryPath(mgr, data.entryType, CacheKey(data.sourceFile, data.client)).Err? ==>
      && r == Fail(EntryPath(mgr, data.entryType, CacheKey(data.sourceFile, data.client)).error)
      && store.files == old(store.files)
    ensures EntryPath(mgr, data.entryType, CacheKey(data.sourceFile, data.client)).Ok? ==>
      && r == Pass
      && store.files == StorePut(old(store.files), EntryPath(mgr, data.entryType, CacheKey(data.sourceFile, data.client)).value,
                                 CacheKey(data.sourceFile, data.client), JObject(toDict(data)))
  {
    var cacheKey := CacheKey(data.sourceFile, data.client);
    var cachePath := EntryPath(mgr, data.entryType, cacheKey);
    if cachePath.Err? {
      return Fail(cachePath.error);
    }
    var cacheData := store.Load(cachePath.value);
    cacheData := cacheData[cacheKey := JObject(toDict(data))];
    store.Save(cacheData, cachePath.value);
    r := Pass;
  }

  /** `get_cached_entry`: the reconstructed entry on a hit, `None` on a miss or
      when `from_dict` fails, and the path error when the class has no directory
      (raised outside the method's `try`). */
  function GetCachedEntry(mgr: CacheSettings, store: JsonStore, client: string, sourceFile: string,
                          t: CacheType, fromDict: (CacheType, JsonValue) -> Option<CacheEntry>)
    : (r: Result<Option<CacheEntry>, ArgError>)
    reads store
    ensures EntryPath(mgr, t, CacheKey(sourceFile, client)).Err? <==> r.Err?
    ensures r.Ok? ==>
      var stored := StoreGet(store.files, EntryPath(mgr, t, CacheKey(sourceFile, client)).value, CacheKey(sourceFile, client));
      && (stored.None? ==> r.value.None?)
      && (stored.Some? ==> r.value == fromDict(t, stored.value))
  {
    var cacheKey := CacheKey(sourceFile, client);
    match EntryPath(mgr, t, cacheKey)
    case Err(e) => Err(e)
    case Ok(cachePath) =>
      var cacheData := store.Load(cachePath);
      if cacheKey in cacheData then Ok(fromDict(t, cacheData[cacheKey])) else Ok(None)
  }

  // ---------------------------------------------------------------------------
  // Properties

  /** An entry class without a configured directory (any class but the summary
      one, or no "summary" path) makes both `cache_entry` and `get_cached_entry`
      raise ValueError for `base_dir`. */
  lemma NoDirectoryRaises(mgr: CacheSettings, t: CacheType, key: string)
    requires !AllSpace(key)
    requires t != SummaryCacheEntry || "summary" !in mgr.cachePaths
    ensures EntryPath(mgr, t, key) == Err(ValueError("base_dir"))
  {
  }

  /** The summary class has a partition path exactly when its configured
      directory is not blank. */
  lemma SummaryPathDefined(mgr: CacheSettings, key: string)
    requires !AllSpace(key) && "summary" in mgr.cachePaths
    ensures EntryPath(mgr, SummaryCacheEntry, key).Ok? <==> !AllSpace(mgr.cachePaths["summary"])
    ensures AllSpace(mgr.cachePaths["summary"]) ==> EntryPath(mgr, SummaryCacheEntry, key) == Err(ValueError("base_dir"))
  {
    var n := Lower(TypeName(SummaryCacheEntry));
    var dir := mgr.cachePaths["summary"];
    SummaryBaseNameNotBlank();
    assert DirArgument(GetCacheDirectory(mgr, SummaryCacheEntry)) == PyStr(dir);
    assert ValidArgs(PyStr(key), PyStr(dir), PyStr(n), PyInt(PartitionCount)) <==> !AllSpace(dir);
    if AllSpace(dir) {
      assert ValidateArgs(PyStr(key), PyStr(dir), PyStr(n), PyInt(PartitionCount)) == Fail(ValueError("base_dir"));
    }
  }

  lemma SummaryBaseNameNotBlank()
    ensures !AllSpace(Lower(TypeName(SummaryCacheEntry)))
  {
    assert Lower(TypeName(SummaryCacheEntry))[0] == 's';
  }

  lemma CacheKeyNotBlank(sourceFile: string, client: string)
    ensures !AllSpace(CacheKey(sourceFile, client))
  {
    assert CacheKey(sourceFile, client)[|sourceFile|] == '#';
  }

  /** A put is read back by a get of the same file and key. */
  lemma PutThenGet(files: map<string, Dict>, path: string, key: string, data: JsonValue)
    ensures StoreGet(StorePut(files, path, key, data), path, key) == Some(data)
  {
  }

  /** A put changes nothing but `cache_data[cache_key]` in its own file. */
  lemma PutLeavesOthersUnchanged(files: map<string, Dict>, path: string, key: string, data: JsonValue,
                                 path': string, key': string)
    requires path' != path || key' != key
    ensures StoreGet(StorePut(files, path, key, data), path', key') == StoreGet(files, path', key')
    ensures path' != path ==> (path' in files <==> path' in StorePut(files, path, key, data))
    ensures path' != path && path' in files ==> StorePut(files, path, key, data)[path'] == files[path']
  {
  }

  /** Caching an entry and then asking for it by its client, source file and
      class yields `from_dict(to_dict(entry))`: the writer and the reader build
      the same key and so the same partition path. */
  lemma CacheRoundTrip(mgr: CacheSettings, files: map<string, Dict>, store: JsonStore, data: CacheEntry,
                       toDict: CacheEntry -> Dict, fromDict: (CacheType, JsonValue) -> Option<CacheEntry>)
    requires EntryPath(mgr, data.entryType, CacheKey(data.sourceFile, data.client)).Ok?
    requires store.files == StorePut(files, EntryPath(mgr, data.entryType, CacheKey(data.sourceFile, data.client)).value,
                                     CacheKey(data.sourceFile, data.client), JObject(toDict(data)))
    ensures GetCachedEntry(mgr, store, data.client, data.sourceFile, data.entryType, fromDict)
         == Ok(fromDict(data.entryType, JObject(toDict(data))))
  {
    var key := CacheKey(data.sourceFile, data.client);
    PutThenGet(files, EntryPath(mgr, data.entryType, key).value, key, JObject(toDict(data)));
  }
}
