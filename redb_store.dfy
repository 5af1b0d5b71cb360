/**
 * The transactional backend (src/redb_store.rs). The database holds one table,
 * "redb", mapping keys to MessagePack bytes. Every write runs in a write
 * transaction (begin, open or create the table, change it, commit) and only a
 * commit makes the change visible; an error at any step abandons the
 * transaction. Reads run in a read transaction, which cannot create the table:
 * in a database whose table was never written, or was deleted by `clear`,
 * opening it fails with a table error.
 */
module RedbBackend {
  import opened Wrappers
  import opened Codecs
  import Pkv

  /** `GetError`, without the engine's payloads. */
  datatype GetError = ReDbStorageError | ReDbTransactionError | ReDbTableError | NotFound | MessagePack

  /** `SetError`, without the engine's payloads. */
  datatype SetError = ReDbCommitError | ReDbStorageError | ReDbTransactionError | ReDbTableError | MessagePack

  /**
   * The engine calls of a write transaction, any of which may fail: beginning
   * it, the change itself (`insert` for `set`, `delete_table` for `clear`), and
   * the commit.
   */
  datatype TxnStep = Begin | Change | Commit

  /** The engine calls of a read that may fail besides opening the table. */
  datatype ReadStep = BeginRead | Lookup

  /** The kind of failure in the store's taxonomy each `GetError` stands for. */
  function GetKind(e: GetError): (k: Pkv.ErrorKind) {
    match e
    case ReDbStorageError => Pkv.StorageIO
    case ReDbTransactionError => Pkv.StorageIO
    case ReDbTableError => Pkv.StorageIO
    case NotFound => Pkv.NotFound
    case MessagePack => Pkv.Decode
  }

  /** The kind of failure in the store's taxonomy each `SetError` stands for. */
  function SetKind(e: SetError): (k: Pkv.ErrorKind) {
    if e == SetError.MessagePack then Pkv.Encode else Pkv.StorageIO
  }

  /** The `SetError` variant a failing step of `set`'s transaction converts into. */
  function InsertError(step: TxnStep): (e: SetError)
    ensures SetKind(e) == Pkv.StorageIO
  {
    match step
    case Begin => SetError.ReDbTransactionError
    case Change => SetError.ReDbStorageError
    case Commit => SetError.ReDbCommitError
  }

  /** The `SetError` variant a failing step of `clear`'s transaction converts into. */
  function ClearError(step: TxnStep): (e: SetError)
    ensures SetKind(e) == Pkv.StorageIO
  {
    match step
    case Begin => SetError.ReDbTransactionError
    case Change => SetError.ReDbTableError
    case Commit => SetError.ReDbCommitError
  }

  class ReDbStore {
    const path: Pkv.Path
    /** The "redb" table, or `None` while the database has no such table. */
    var table: Option<Pkv.Table>

    /** Opens (or creates) `bevy_pkv.redb` in `dir`; `existing` is what that file already holds. */
    constructor(dir: Pkv.Path, existing: Option<Pkv.Table>)
      ensures path == dir + ["bevy_pkv.redb"]
      ensures table == existing
    {
      path := dir + ["bevy_pkv.redb"];
      table := existing;
    }

    /** The records visible to readers: none while the table does not exist. */
    function Records(): (m: Pkv.Table)
      reads this
    {
      table.GetOr(map[])
    }

    /** One write transaction that inserts `bytes` under `key`; `failAt` is the engine call that fails, if any. */
    method Write(key: string, bytes: Bytes, failAt: Option<TxnStep>) returns (r: Result<(), SetError>)
      modifies this
      ensures failAt.Some? ==> r == Err(InsertError(failAt.value)) && table == old(table)
      ensures failAt.None? ==> r == Ok(()) && table == Some(old(Records())[key := bytes])
    {
      if failAt == Some(Begin) {
        return Err(InsertError(Begin));
      }
      // opening the table in a write transaction creates it when it is missing
      var pending := Records();
      if failAt == Some(Change) {
        return Err(InsertError(Change));
      }
      pending := pending[key := bytes];
      if failAt == Some(Commit) {
        return Err(InsertError(Commit));
      }
      table := Some(pending);
      r := Ok(());
    }

    /** Serializes first; an encoding failure returns before any transaction begins. */
    method Set<T>(key: string, value: T, codec: Codec<T, Bytes>, failAt: Option<TxnStep>) returns (r: Result<(), SetError>)
      modifies this
      ensures codec.encode(value).None? ==> r == Err(SetError.MessagePack) && table == old(table)
      ensures codec.encode(value).Some? && failAt.Some? ==> r == Err(InsertError(failAt.value)) && table == old(table)
      ensures codec.encode(value).Some? && failAt.None? ==>
                r == Ok(()) && table == Some(old(Records())[key := codec.encode(value).value])
      ensures (Records(), r.MapErr(SetKind)) == Pkv.ContractSet(old(Records()), key, value, codec, failAt.Some?)
    {
      var bytes := codec.encode(value);
      if bytes.None? {
        return Err(SetError.MessagePack);
      }
      r := Write(key, bytes.value, failAt);
    }

    /** `set_string`: the text's MessagePack bytes (`strCodec`), written the same way as `set`. */
    method SetString(key: string, value: string, strCodec: Codec<string, Bytes>, failAt: Option<TxnStep>)
      returns (r: Result<(), SetError>)
      modifies this
      ensures strCodec.encode(value).None? ==> r == Err(SetError.MessagePack) && table == old(table)
      ensures strCodec.encode(value).Some? && failAt.Some? ==> r == Err(InsertError(failAt.value)) && table == old(table)
      ensures strCodec.encode(value).Some? && failAt.None? ==>
                r == Ok(()) && table == Some(old(Records())[key := strCodec.encode(value).value])
      ensures (Records(), r.MapErr(SetKind)) == Pkv.ContractSet(old(Records()), key, value, strCodec, failAt.Some?)
    {
      var bytes := strCodec.encode(value);
      if bytes.None? {
        return Err(SetError.MessagePack);
      }
      r := Write(key, bytes.value, failAt);
    }

    /**
     * `get` as written: a read transaction, the table, the record, the decode.
     * Once the table exists it behaves as the store's contract says; while it
     * does not, every key reports a table error instead of `NotFound`.
     */
    function Get<T>(key: string, codec: Codec<T, Bytes>, fault: Option<ReadStep>): (r: Result<T, GetError>)
      reads this
      ensures fault == Some(BeginRead) ==> r == Err(GetError.ReDbTransactionError)
      ensures fault != Some(BeginRead) && table.None? ==> r == Err(GetError.ReDbTableError)
      ensures fault.Some? ==> r.Err?
      ensures table.Some? && fault.None? ==> r.MapErr(GetKind) == Pkv.ContractGet(table.value, key, codec, false)
      ensures r.Ok? ==> key in Records() && codec.decode(Records()[key]) == Some(r.value)
    {
      if fault == Some(BeginRead) then Err(GetError.ReDbTransactionError)
      else if table.None? then Err(GetError.ReDbTableError)
      else if fault.Some? then Err(GetError.ReDbStorageError) // the lookup failed
      else if key !in table.value then Err(GetError.NotFound)
      else match codec.decode(table.value[key])
        case None => Err(GetError.MessagePack)
        case Some(v) => Ok(v)
    }

    /**
     * `get` with a missing table read as an empty one: the behaviour the
     * facade's documentation and its `empty_db_not_found` test expect.
     */
    function GetOrNotFound<T>(key: string, codec: Codec<T, Bytes>, fault: Option<ReadStep>): (r: Result<T, GetError>)
      reads this
      ensures fault.None? ==> r.MapErr(GetKind) == Pkv.ContractGet(Records(), key, codec, false)
      ensures fault.None? && key !in Records() ==> r == Err(GetError.NotFound)
      ensures table.Some? ==> r == Get(key, codec, fault)
    {
      if fault == Some(BeginRead) then Err(GetError.ReDbTransactionError)
      else if table.None? then Err(GetError.NotFound)
      else Get(key, codec, fault)
    }

    /** Deletes the whole table in one committed write transaction. */
    method Clear(failAt: Option<TxnStep>) returns (r: Result<(), SetError>)
      modifies this
      ensures failAt.Some? ==> r == Err(ClearError(failAt.value)) && table == old(table)
      ensures failAt.None? ==> r == Ok(()) && table.None?
      ensures (Records(), r.MapErr(SetKind)) == Pkv.ContractClear(old(Records()), failAt.Some?)
    {
      if failAt == Some(Begin) {
        return Err(ClearError(Begin));
      }
      var pending: Option<Pkv.Table> := None;
      if failAt == Some(Change) {
        return Err(ClearError(Change));
      }
      if failAt == Some(Commit) {
        return Err(ClearError(Commit));
      }
      table := pending;
      r := Ok(());
    }
  }

  /** After a successful `clear` no key reads back a value, whatever the read's outcome. */
  lemma ClearedStoreHasNoValues<T>(store: ReDbStore, key: string, codec: Codec<T, Bytes>, fault: Option<ReadStep>)
    requires store.table.None?
    ensures store.Get(key, codec, fault).Err?
    ensures store.GetOrNotFound(key, codec, fault).Err?
  {
  }

  /**
   * The facade's `empty_db_not_found` test on this backend, as written: a
   * freshly created database has no table yet, so `get` reports a table error.
   */
  method EmptyDbGetAsWritten<T>(dir: Pkv.Path, key: string, codec: Codec<T, Bytes>) returns (err: Result<T, GetError>)
    ensures err == Err(GetError.ReDbTableError)
  {
    var store := new ReDbStore(dir, None);
    err := store.Get(key, codec, None);
  }

  /** The same test with the missing table read as empty: `NotFound`, as the test expects. */
  method EmptyDbGetCorrected<T>(dir: Pkv.Path, key: string, codec: Codec<T, Bytes>) returns (err: Result<T, GetError>)
    ensures err == Err(GetError.NotFound)
  {
    var store := new ReDbStore(dir, None);
    err := store.GetOrNotFound(key, codec, None);
  }

  /**
   * The facade's `clear` test on this backend, reading through the corrected
   * `get`: both keys read back before `clear` and are `NotFound` after.
   */
  method ClearTest(dir: Pkv.Path, existing: Option<Pkv.Table>, key1: string, key2: string, value1: string, value2: string,
                   strCodec: Codec<string, Bytes>)
    returns (before1: Result<string, GetError>, before2: Result<string, GetError>,
             after1: Result<string, GetError>, after2: Result<string, GetError>)
    requires key1 != key2
    requires RoundTrips(strCodec) && strCodec.encode(value1).Some? && strCodec.encode(value2).Some?
    ensures before1 == Ok(value1) && before2 == Ok(value2)
    ensures after1 == Err(GetError.NotFound) && after2 == Err(GetError.NotFound)
  {
    var store := new ReDbStore(dir, existing);
    var set1 := store.SetString(key1, value1, strCodec, None);
    var set2 := store.SetString(key2, value2, strCodec, None);
    before1 := store.GetOrNotFound(key1, strCodec, None);
    before2 := store.GetOrNotFound(key2, strCodec, None);
    var cleared := store.Clear(None);
    after1 := store.GetOrNotFound(key1, strCodec, None);
    after2 := store.GetOrNotFound(key2, strCodec, None);
  }
}
