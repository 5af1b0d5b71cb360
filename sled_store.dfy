/**
 * The log-structured backend (src/sled_store.rs). A single sled tree maps keys
 * to MessagePack bytes; `insert` and `clear` change it in place. The store is
 * opened under the platform data directory for its configuration, or under the
 * working directory when the platform has none.
 */
module SledBackend {
  import opened Wrappers
  import opened Codecs
  import Pkv

  /** The configuration the store is built from (organization, application, optional qualifier). */
  datatype StoreConfig = StoreConfig(qualifier: Option<string>, organization: string, application: string)

  /** `GetError`, without the engine's payloads. */
  datatype GetError = Sled | MessagePack | NotFound

  /** `SetError`, without the engine's payloads. */
  datatype SetError = Sled | MessagePack

  /** The kind of failure in the store's taxonomy each `GetError` stands for. */
  function GetKind(e: GetError): (k: Pkv.ErrorKind) {
    match e
    case Sled => Pkv.StorageIO
    case MessagePack => Pkv.Decode
    case NotFound => Pkv.NotFound
  }

  /** The kind of failure in the store's taxonomy each `SetError` stands for. */
  function SetKind(e: SetError): (k: Pkv.ErrorKind) {
    match e
    case Sled => Pkv.StorageIO
    case MessagePack => Pkv.Encode
  }

  /** The arguments given to the platform directory lookup: a missing qualifier is passed as "". */
  function DirsQuery(config: StoreConfig): (q: (string, string, string))
    ensures config.qualifier.None? ==> q.0 == ""
    ensures config.qualifier.Some? ==> q.0 == config.qualifier.value
    ensures q.1 == config.organization && q.2 == config.application
  {
    (config.qualifier.GetOr(""), config.organization, config.application)
  }

  /**
   * The database path `new` opens. `dataDir` is the platform's per-user data
   * directory convention, which may have no answer.
   */
  function DbPath(config: StoreConfig, dataDir: ((string, string, string)) -> Option<Pkv.Path>): (p: Pkv.Path)
    ensures |p| >= 1 && p[|p| - 1] == "bevy_pkv.sled"
    ensures dataDir(DirsQuery(config)).None? ==> p == [".", "bevy_pkv.sled"]
    ensures dataDir(DirsQuery(config)).Some? ==> p == dataDir(DirsQuery(config)).value + ["bevy_pkv.sled"]
  {
    var parent := match dataDir(DirsQuery(config))
      case Some(dir) => dir
      case None => ["."];
    parent + ["bevy_pkv.sled"]
  }

  /** Leaving the qualifier out opens the same database as giving an empty one. */
  lemma MissingQualifierIsEmpty(organization: string, application: string, dataDir: ((string, string, string)) -> Option<Pkv.Path>)
    ensures DbPath(StoreConfig(None, organization, application), dataDir)
         == DbPath(StoreConfig(Some(""), organization, application), dataDir)
  {
    assert DirsQuery(StoreConfig(None, organization, application)) == DirsQuery(StoreConfig(Some(""), organization, application));
  }

  class SledStore {
    const path: Pkv.Path
    var db: Pkv.Table

    /** Opens the database at `DbPath`; `existing` is what it already holds. */
    constructor(config: StoreConfig, dataDir: ((string, string, string)) -> Option<Pkv.Path>, existing: Pkv.Table)
      ensures path == DbPath(config, dataDir)
      ensures db == existing
    {
      path := DbPath(config, dataDir);
      db := existing;
    }

    /** Serializes first: an encoding failure returns before the database is touched. */
    method Set<T>(key: string, value: T, codec: Codec<T, Bytes>, insertFails: bool) returns (r: Result<(), SetError>)
      modifies this
      ensures codec.encode(value).None? ==> r == Err(SetError.MessagePack) && db == old(db)
      ensures codec.encode(value).Some? && insertFails ==> r == Err(SetError.Sled) && db == old(db)
      ensures codec.encode(value).Some? && !insertFails ==> r == Ok(()) && db == old(db)[key := codec.encode(value).value]
      ensures (db, r.MapErr(SetKind)) == Pkv.ContractSet(old(db), key, value, codec, insertFails)
    {
      var bytes := codec.encode(value);
      if bytes.None? {
        return Err(SetError.MessagePack);
      }
      if insertFails {
        return Err(SetError.Sled);
      }
      db := db[key := bytes.value];
      r := Ok(());
    }

    /** `set_string`: the text's MessagePack bytes (`strCodec`), inserted as `set` does. */
    method SetString(key: string, value: string, strCodec: Codec<string, Bytes>, insertFails: bool) returns (r: Result<(), SetError>)
      modifies this
      ensures strCodec.encode(value).None? ==> r == Err(SetError.MessagePack) && db == old(db)
      ensures strCodec.encode(value).Some? && insertFails ==> r == Err(SetError.Sled) && db == old(db)
      ensures strCodec.encode(value).Some? && !insertFails ==> r == Ok(()) && db == old(db)[key := strCodec.encode(value).value]
      ensures (db, r.MapErr(SetKind)) == Pkv.ContractSet(old(db), key, value, strCodec, insertFails)
    {
      var bytes := strCodec.encode(value);
      if bytes.None? {
        return Err(SetError.MessagePack);
      }
      if insertFails {
        return Err(SetError.Sled);
      }
      db := db[key := bytes.value];
      r := Ok(());
    }

    /** `NotFound` for a missing key, `MessagePack` for bytes that do not decode, `Sled` for a failing read. */
    function Get<T>(key: string, codec: Codec<T, Bytes>, readFails: bool): (r: Result<T, GetError>)
      reads this
      ensures r.MapErr(GetKind) == Pkv.ContractGet(db, key, codec, readFails)
      ensures !readFails && key !in db ==> r == Err(GetError.NotFound)
      ensures !readFails && key in db && codec.decode(db[key]).None? ==> r == Err(GetError.MessagePack)
    {
      if readFails then Err(GetError.Sled)
      else if key !in db then Err(GetError.NotFound)
      else match codec.decode(db[key])
        case None => Err(GetError.MessagePack)
        case Some(v) => Ok(v)
    }

    /** Empties the whole database in one engine call. */
    method Clear(clearFails: bool) returns (r: Result<(), SetError>)
      modifies this
      ensures clearFails ==> r == Err(SetError.Sled) && db == old(db)
      ensures !clearFails ==> r == Ok(()) && db == map[]
      ensures (db, r.MapErr(SetKind)) == Pkv.ContractClear(old(db), clearFails)
    {
      if clearFails {
        return Err(SetError.Sled);
      }
      db := map[];
      r := Ok(());
    }
  }

  /** After a successful `clear`, `get` of every key is `NotFound`. */
  method ClearThenGet<T>(config: StoreConfig, dataDir: ((string, string, string)) -> Option<Pkv.Path>, existing: Pkv.Table,
                         key: string, codec: Codec<T, Bytes>)
    returns (ret: Result<T, GetError>)
    ensures ret == Err(GetError.NotFound)
  {
    var store := new SledStore(config, dataDir, existing);
    var cleared := store.Clear(false);
    ret := store.Get(key, codec, false);
  }
}
