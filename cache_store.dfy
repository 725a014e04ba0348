/** The "ModelCache" database: two object stores keyed by the record's `key`
    property, "models" (version-stamped configuration records) and "files"
    (unversioned URL records), and the four operations the application
    performs on them. */
module CacheStore {
  import opened JsValues

  /** Bumping this tag hides every record written under an older one. */
  const MODEL_VERSION: string := "1"

  /** Rejection reasons of the store operations. */
  const ACCESS_DENIED: string := "IndexedDB access denied"
  const FETCH_ERROR: string := "Error fetching from IndexedDB"
  const SAVE_ERROR: string := "Error saving to IndexedDB"
  const LOAD_ERROR: string := "Error loading from IndexedDB"

  /** A record of the "models" store. */
  datatype ModelRecord = ModelRecord(key: string, modelConfig: Value, version: string)

  /** A record of the "files" store: no version field. */
  datatype FileRecord = FileRecord(key: string, url: string)

  /** How the host database answers one call: the database cannot be opened,
      the get or put request fails, or all goes well. */
  datatype StoreFault = NoFault | OpenDenied | RequestFailed

  type Models = map<string, ModelRecord>
  type Files = map<string, FileRecord>

  /** Both stores use "key" as key path: a record sits under its own key. */
  ghost predicate KeyPathsHold(models: Models, files: Files) {
    && (forall k :: k in models ==> models[k].key == k)
    && (forall k :: k in files ==> files[k].key == k)
  }

  /** The version gate applied to the record a get returned (or null). */
  function Gate(found: Option<ModelRecord>): Value {
    if found.Some? && found.value.version == MODEL_VERSION then found.value.modelConfig else Null
  }

  /** What a successful load of `key` resolves to. */
  function Fresh(models: Models, key: string): Value {
    Gate(if key in models then Some(models[key]) else None)
  }

  /** The "models" store after a successful save of `config` under `key`. */
  function Stamp(models: Models, key: string, config: Value): Models {
    models[key := ModelRecord(key, config, MODEL_VERSION)]
  }

  /** What a successful file load of `key` resolves to. */
  function FileUrl(files: Files, key: string): Option<string> {
    if key in files then Some(files[key].url) else None
  }

  /** The "files" store after a successful file save. */
  function PutFile(files: Files, key: string, url: string): Files {
    files[key := FileRecord(key, url)]
  }

  class Store {
    var models: Models
    var files: Files

    ghost predicate Valid()
      reads this
    {
      KeyPathsHold(models, files)
    }

    /** A database opened for the first time: the upgrade creates both stores empty. */
    constructor()
      ensures Valid() && models == map[] && files == map[]
    {
      models, files := map[], map[];
    }

    /** loadFromIndexedDB: the stored configuration when a record exists
        under `key` with the current version, null otherwise. */
    method Load(key: string, fault: StoreFault) returns (r: Result<Value>)
      requires Valid()
      ensures r.Ok? <==> fault == NoFault
      ensures fault == OpenDenied ==> r == Err(ACCESS_DENIED)
      ensures fault == RequestFailed ==> r == Err(FETCH_ERROR)
      ensures r.Ok? && key in models && models[key].version == MODEL_VERSION ==> r.value == models[key].modelConfig
      ensures r.Ok? && key !in models ==> r.value == Null
      ensures r.Ok? && key in models && models[key].version != MODEL_VERSION ==> r.value == Null
      ensures r.Ok? ==> r.value == Fresh(models, key)
      ensures r.Ok? && r.value != Null ==> key in models && models[key] == ModelRecord(key, r.value, MODEL_VERSION)
    {
      if fault == OpenDenied {
        return Err(ACCESS_DENIED);
      }
      if fault == RequestFailed {
        return Err(FETCH_ERROR);
      }
      var found := if key in models then Some(models[key]) else None;
      r := Ok(Gate(found));
    }

    /** saveToIndexedDB: puts `{key, modelConfig, version: MODEL_VERSION}`
        into "models", replacing any record under `key`. */
    method Save(key: string, modelConfig: Value, fault: StoreFault) returns (r: Result<()>)
      requires Valid()
      modifies this
      ensures Valid()
      ensures r.Ok? <==> fault == NoFault
      ensures fault == OpenDenied ==> r == Err(ACCESS_DENIED)
      ensures fault == RequestFailed ==> r == Err(SAVE_ERROR)
      ensures models == if r.Ok? then Stamp(old(models), key, modelConfig) else old(models)
      ensures files == old(files)
    {
      if fault == OpenDenied {
        return Err(ACCESS_DENIED);
      }
      if fault == RequestFailed {
        return Err(SAVE_ERROR);
      }
      models := models[key := ModelRecord(key, modelConfig, MODEL_VERSION)];
      r := Ok(());
    }

    /** saveFileToIndexedDB: puts `{key, url}` into "files", where `url` is
        the object URL the host minted for the file's blob. */
    method SaveFile(key: string, url: string, fault: StoreFault) returns (r: Result<()>)
      requires Valid()
      modifies this
      ensures Valid()
      ensures r.Ok? <==> fault == NoFault
      ensures fault == OpenDenied ==> r == Err(ACCESS_DENIED)
      ensures fault == RequestFailed ==> r == Err(SAVE_ERROR)
      ensures files == if r.Ok? then PutFile(old(files), key, url) else old(files)
      ensures models == old(models)
    {
      if fault == OpenDenied {
        return Err(ACCESS_DENIED);
      }
      if fault == RequestFailed {
        return Err(SAVE_ERROR);
      }
      files := files[key := FileRecord(key, url)];
      r := Ok(());
    }

    /** loadFileFromIndexedDB: the stored URL when a record exists, null
        otherwise; there is no version check. */
    method LoadFile(key: string, fault: StoreFault) returns (r: Result<Option<string>>)
      requires Valid()
      ensures r.Ok? <==> fault == NoFault
      ensures fault == OpenDenied ==> r == Err(ACCESS_DENIED)
      ensures fault == RequestFailed ==> r == Err(LOAD_ERROR)
      ensures r.Ok? ==> (r.value.Some? <==> key in files)
      ensures r.Ok? && key in files ==> r.value.value == files[key].url
      ensures r.Ok? ==> r.value == FileUrl(files, key)
      ensures r.Ok? && r.value.Some? ==> files[key] == FileRecord(key, r.value.value)
    {
      if fault == OpenDenied {
        return Err(ACCESS_DENIED);
      }
      if fault == RequestFailed {
        return Err(LOAD_ERROR);
      }
      if key in files {
        r := Ok(Some(files[key].url));
      } else {
        r := Ok(None);
      }
    }
  }

  /** A save followed by a load of the same key returns what was saved,
      whatever record (stale or not) was there before. */
  lemma SaveThenLoad(models: Models, key: string, config: Value)
    ensures Fresh(Stamp(models, key, config), key) == config
  {
  }

  /** A save touches only its own key. */
  lemma SaveIsolated(models: Models, key: string, config: Value, other: string)
    requires other != key
    ensures other in Stamp(models, key, config) <==> other in models
    ensures other in models ==> Stamp(models, key, config)[other] == models[other]
  {
  }

  /** Two saves to one key leave the store as the second save alone would. */
  lemma SaveOverwrites(models: Models, key: string, first: Value, second: Value)
    ensures Stamp(Stamp(models, key, first), key, second) == Stamp(models, key, second)
  {
  }

  /** A record under another version is never surfaced. */
  lemma StaleNeverSurfaced(models: Models, key: string)
    requires key in models && models[key].version != MODEL_VERSION
    ensures Fresh(models, key) == Null
  {
  }

  /** The "files" pair round-trips, with no version involved. */
  lemma SaveFileThenLoadFile(files: Files, key: string, url: string, other: string)
    ensures FileUrl(PutFile(files, key, url), key) == Some(url)
    ensures other != key ==> FileUrl(PutFile(files, key, url), other) == FileUrl(files, other)
  {
  }

  /** The "models" store after a sequence of successful saves, in order. */
  function SaveAll(models: Models, saves: seq<(string, Value)>): Models
    decreases |saves|
  {
    if saves == [] then models
    else
      var last := saves[|saves| - 1];
      Stamp(SaveAll(models, saves[..|saves| - 1]), last.0, last.1)
  }

  /** The value of the last save to `key` in `saves`, if any. */
  function LastWrite(saves: seq<(string, Value)>, key: string): Option<Value>
    decreases |saves|
  {
    if saves == [] then None
    else if saves[|saves| - 1].0 == key then Some(saves[|saves| - 1].1)
    else LastWrite(saves[..|saves| - 1], key)
  }

  /** Last writer wins: after any sequence of saves, a load of `key` returns
      the value of the last save to `key`, or what it returned before when
      no save touched `key`. */
  lemma {:induction false} LoadAfterSaves(models: Models, saves: seq<(string, Value)>, key: string)
    ensures LastWrite(saves, key).Some? ==> Fresh(SaveAll(models, saves), key) == LastWrite(saves, key).value
    ensures LastWrite(saves, key).None? ==> Fresh(SaveAll(models, saves), key) == Fresh(models, key)
    decreases |saves|
  {
    if saves != [] {
      LoadAfterSaves(models, saves[..|saves| - 1], key);
    }
  }

  /** Saves keep every record under its own key. */
  lemma {:induction false} SavesKeepKeyPaths(models: Models, files: Files, saves: seq<(string, Value)>)
    requires KeyPathsHold(models, files)
    ensures KeyPathsHold(SaveAll(models, saves), files)
    decreases |saves|
  {
    if saves != [] {
      SavesKeepKeyPaths(models, files, saves[..|saves| - 1]);
    }
  }
}
