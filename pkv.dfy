/**
 * The store facade of bevy_pkv (src/lib.rs). A `PkvStore` owns one backend and
 * forwards every call to it unchanged; the backend is a string-keyed map of
 * serialized records. Here the facade is written against the contract every
 * backend is meant to honour (the `StoreImpl` trait and its doc comments), with
 * errors in the shared taxonomy `ErrorKind`; each backend module relates its own
 * error enums to this contract. Failures of the storage engine are parameters.
 */
module Pkv {
  import opened Wrappers
  import opened Codecs

  /** A filesystem path, as its components. */
  type Path = seq<string>

  /** The records of one store, by key. */
  type Table = map<string, Bytes>

  /** The kinds of failure every backend maps its own errors into; `StorageIO` is any failure of the engine. */
  datatype ErrorKind = NotFound | Decode | Encode | StorageIO

  /** Where the platform-default location is derived from. */
  datatype PlatformDefault = PlatformDefault(qualifier: Option<string>, organization: string, application: string)

  datatype Location = Platform(config: PlatformDefault) | CustomPath(path: Path)

  /**
   * What the contract says `get` returns for the records `m`: a missing key is
   * `NotFound`, a record that does not decode as the requested type is `Decode`,
   * a failing engine read is `StorageIO`, and otherwise the decoded value.
   */
  function ContractGet<T, R>(m: map<string, R>, key: string, codec: Codec<T, R>, readFails: bool): (r: Result<T, ErrorKind>)
    ensures readFails ==> r == Err(StorageIO)
    ensures r == Err(NotFound) <==> !readFails && key !in m
    ensures r == Err(Decode) <==> !readFails && key in m && codec.decode(m[key]).None?
    ensures r.Ok? <==> !readFails && key in m && codec.decode(m[key]).Some?
    ensures r.Ok? ==> codec.decode(m[key]) == Some(r.value)
  {
    if readFails then Err(StorageIO)
    else if key !in m then Err(NotFound)
    else match codec.decode(m[key])
      case None => Err(Decode)
      case Some(v) => Ok(v)
  }

  /**
   * What the contract says `set` does to the records `m`: a value that does not
   * encode is `Encode` and a failing engine write is `StorageIO`, both leaving
   * `m` as it was; otherwise `key` maps to the encoded record and no other key
   * changes. Returns the new records and the result.
   */
  function ContractSet<T, R>(m: map<string, R>, key: string, value: T, codec: Codec<T, R>, writeFails: bool)
    : (s: (map<string, R>, Result<(), ErrorKind>))
    ensures s.1 == Err(Encode) <==> codec.encode(value).None?
    ensures s.1 == Err(StorageIO) <==> codec.encode(value).Some? && writeFails
    ensures s.1.Ok? <==> codec.encode(value).Some? && !writeFails
    ensures s.1.Err? ==> s.0 == m
    ensures s.1.Ok? ==> s.0.Keys == m.Keys + {key} && s.0[key] == codec.encode(value).value
    ensures forall k :: k in m && k != key ==> k in s.0 && s.0[k] == m[k]
  {
    match codec.encode(value)
    case None => (m, Err(Encode))
    case Some(record) => if writeFails then (m, Err(StorageIO)) else (m[key := record], Ok(()))
  }

  /** What the contract says `clear` does: all records go, or a failing engine call leaves them all. */
  function ContractClear<R>(m: map<string, R>, clearFails: bool): (s: (map<string, R>, Result<(), ErrorKind>))
    ensures s.1.Ok? <==> !clearFails
    ensures s.1.Ok? ==> s.0 == map[]
    ensures s.1.Err? ==> s.1 == Err(StorageIO) && s.0 == m
  {
    if clearFails then (m, Err(StorageIO)) else (map[], Ok(()))
  }

  /**
   * A successful `set` is read back by `get` as the value written, and leaves
   * what `get` answers for every other key as it was.
   */
  lemma SetThenGet<T(!new), R>(m: map<string, R>, key: string, other: string, value: T, codec: Codec<T, R>, writeFails: bool)
    requires RoundTrips(codec)
    ensures ContractSet(m, key, value, codec, writeFails).1.Ok? ==>
              ContractGet(ContractSet(m, key, value, codec, writeFails).0, key, codec, false) == Ok(value)
    ensures other != key ==>
              ContractGet(ContractSet(m, key, value, codec, writeFails).0, other, codec, false) == ContractGet(m, other, codec, false)
  {
    var (m', r) := ContractSet(m, key, value, codec, writeFails);
    if other != key && other in m {
      assert m'[other] == m[other];
    }
  }

  /** After a successful `clear`, `get` of any key is `NotFound`. */
  lemma ClearThenGet<T, R>(m: map<string, R>, key: string, codec: Codec<T, R>, clearFails: bool)
    ensures ContractClear(m, clearFails).1.Ok? ==> ContractGet(ContractClear(m, clearFails).0, key, codec, false) == Err(NotFound)
  {
  }

  class PkvStore {
    const location: Location
    /** The backend's records. */
    var inner: Table

    /** Opens the store at the platform-default location; `persisted` is what that location already holds. */
    constructor New(organization: string, application: string, persisted: Table)
      ensures location == Platform(PlatformDefault(None, organization, application))
      ensures inner == persisted
    {
      location := Platform(PlatformDefault(None, organization, application));
      inner := persisted;
    }

    constructor NewWithQualifier(qualifier: string, organization: string, application: string, persisted: Table)
      ensures location == Platform(PlatformDefault(Some(qualifier), organization, application))
      ensures inner == persisted
    {
      location := Platform(PlatformDefault(Some(qualifier), organization, application));
      inner := persisted;
    }

    /** Opens the store in `path`, bypassing the platform convention. */
    constructor NewInDir(path: Path, persisted: Table)
      ensures location == CustomPath(path)
      ensures inner == persisted
    {
      location := CustomPath(path);
      inner := persisted;
    }

    /** Serializes `value` and writes it under `key`, replacing any earlier record. */
    method Set<T>(key: string, value: T, codec: Codec<T, Bytes>, writeFails: bool) returns (r: Result<(), ErrorKind>)
      modifies this
      ensures (inner, r) == ContractSet(old(inner), key, value, codec, writeFails)
    {
      match codec.encode(value)
      case None =>
        r := Err(Encode);
      case Some(record) =>
        if writeFails {
          r := Err(StorageIO);
        } else {
          inner := inner[key := record];
          r := Ok(());
        }
    }

    /** The trait's default `set_string`: `set` of the same text as a `String`. */
    method SetString(key: string, value: string, strCodec: Codec<string, Bytes>, writeFails: bool)
      returns (r: Result<(), ErrorKind>)
      modifies this
      ensures (inner, r) == ContractSet(old(inner), key, value, strCodec, writeFails)
    {
      r := Set(key, value, strCodec, writeFails);
    }

    /** Reads and decodes the record for `key`: `NotFound` exactly when the key does not exist. */
    function Get<T>(key: string, codec: Codec<T, Bytes>, readFails: bool): (r: Result<T, ErrorKind>)
      reads this
      ensures r == Err(NotFound) <==> !readFails && key !in inner
      ensures r.Ok? ==> key in inner && codec.decode(inner[key]) == Some(r.value)
    {
      ContractGet(inner, key, codec, readFails)
    }

    /** Deletes the record for `key`; a key that is already absent is not an error. */
    method Remove(key: string, writeFails: bool) returns (r: Result<(), ErrorKind>)
      modifies this
      ensures writeFails ==> r == Err(StorageIO) && inner == old(inner)
      ensures !writeFails ==> r == Ok(()) && inner == old(inner) - {key}
    {
      if writeFails {
        r := Err(StorageIO);
      } else {
        inner := inner - {key};
        r := Ok(());
      }
    }

    /**
     * Deletes the record for `key` and returns its value: `Some` when there was
     * one, `None` (not an error) when the key was absent.
     */
    method RemoveAndGet<T>(key: string, codec: Codec<T, Bytes>, writeFails: bool) returns (r: Result<Option<T>, ErrorKind>)
      modifies this
      ensures writeFails ==> r == Err(StorageIO) && inner == old(inner)
      ensures !writeFails && key !in old(inner) ==> r == Ok(None) && inner == old(inner)
      ensures !writeFails && key in old(inner) && codec.decode(old(inner)[key]).None? ==>
                r == Err(Decode) && inner == old(inner)
      ensures !writeFails && key in old(inner) && codec.decode(old(inner)[key]).Some? ==>
                r == Ok(Some(codec.decode(old(inner)[key]).value)) && inner == old(inner) - {key}
    {
      if writeFails {
        return Err(StorageIO);
      }
      if key !in inner {
        return Ok(None);
      }
      match codec.decode(inner[key])
      case None =>
        r := Err(Decode);
      case Some(v) =>
        inner := inner - {key};
        r := Ok(Some(v));
    }

    /** Removes every record. */
    method Clear(writeFails: bool) returns (r: Result<(), ErrorKind>)
      modifies this
      ensures (inner, r) == ContractClear(old(inner), writeFails)
    {
      if writeFails {
        r := Err(StorageIO);
      } else {
        inner := map[];
        r := Ok(());
      }
    }
  }

  // The tests of src/lib.rs, restated as methods over the model. Each opens a
  // store over whatever its location already holds (`persisted`); the engine
  // never fails, as the tests' `unwrap` calls assume.

  /** Test `set_string`: text written with `set_string` reads back with `get::<String>`. */
  method SetStringTest(persisted: Table, key: string, value: string, strCodec: Codec<string, Bytes>)
    returns (ret: Result<string, ErrorKind>)
    requires RoundTrips(strCodec) && strCodec.encode(value).Some?
    ensures ret == Ok(value)
  {
    var store := new PkvStore.New("BevyPkv", "test_set_string", persisted);
    var written := store.SetString(key, value, strCodec, false);
    ret := store.Get(key, strCodec, false);
  }

  /** Test `new_in_dir`: a store opened in an explicit directory behaves the same way. */
  method NewInDirTest(dir: Path, persisted: Table, key: string, value: string, strCodec: Codec<string, Bytes>)
    returns (ret: Result<string, ErrorKind>)
    requires RoundTrips(strCodec) && strCodec.encode(value).Some?
    ensures ret == Ok(value)
  {
    var store := new PkvStore.NewInDir(dir, persisted);
    var written := store.SetString(key, value, strCodec, false);
    ret := store.Get(key, strCodec, false);
  }

  /** Test `empty_db_not_found`: a store opened on an empty location finds nothing. */
  method EmptyDbNotFoundTest<T>(dir: Path, key: string, codec: Codec<T, Bytes>) returns (err: Result<T, ErrorKind>)
    ensures err == Err(NotFound)
  {
    var store := new PkvStore.NewInDir(dir, map[]);
    err := store.Get(key, codec, false);
  }

  /** Test `clear`: two keys written, both readable, then neither after `clear`. */
  method ClearTest(persisted: Table, key1: string, key2: string, value1: string, value2: string, strCodec: Codec<string, Bytes>)
    returns (before1: Result<string, ErrorKind>, before2: Result<string, ErrorKind>,
             after1: Result<string, ErrorKind>, after2: Result<string, ErrorKind>)
    requires key1 != key2
    requires RoundTrips(strCodec) && strCodec.encode(value1).Some? && strCodec.encode(value2).Some?
    ensures before1 == Ok(value1) && before2 == Ok(value2)
    ensures after1 == Err(NotFound) && after2 == Err(NotFound)
  {
    var store := new PkvStore.New("BevyPkv", "test_clear", persisted);
    var set1 := store.SetString(key1, value1, strCodec, false);
    var set2 := store.SetString(key2, value2, strCodec, false);
    before1 := store.Get(key1, strCodec, false);
    before2 := store.Get(key2, strCodec, false);
    var cleared := store.Clear(false);
    after1 := store.Get(key1, strCodec, false);
    after2 := store.Get(key2, strCodec, false);
  }

  /** Test `set`: a typed value reads back equal. */
  method SetTest<T(!new)>(persisted: Table, key: string, user: T, codec: Codec<T, Bytes>) returns (ret: Result<T, ErrorKind>)
    requires RoundTrips(codec) && codec.encode(user).Some?
    ensures ret == Ok(user)
  {
    var store := new PkvStore.New("BevyPkv", "test_set", persisted);
    var written := store.Set(key, user, codec, false);
    ret := store.Get(key, codec, false);
  }

  /** Test `remove`: after `set` and `remove`, `get` yields no value. */
  method RemoveTest<T>(persisted: Table, key: string, user: T, codec: Codec<T, Bytes>) returns (ret: Result<T, ErrorKind>)
    requires codec.encode(user).Some?
    ensures ret == Err(NotFound)
  {
    var store := new PkvStore.New("BevyPkv", "test_remove", persisted);
    var written := store.Set(key, user, codec, false);
    var removed := store.Remove(key, false);
    ret := store.Get(key, codec, false);
  }

  /** Test `remove_and_get`: the removed value is the one stored, and the key is gone afterwards. */
  method RemoveAndGetTest<T(!new)>(persisted: Table, key: string, user: T, codec: Codec<T, Bytes>)
    returns (removed: Result<Option<T>, ErrorKind>, ret: Result<T, ErrorKind>)
    requires RoundTrips(codec) && codec.encode(user).Some?
    ensures removed == Ok(Some(user))
    ensures ret == Err(NotFound)
  {
    var store := new PkvStore.New("BevyPkv", "test_remove_and_get", persisted);
    var written := store.Set(key, user, codec, false);
    removed := store.RemoveAndGet(key, codec, false);
    ret := store.Get(key, codec, false);
  }

  /** `remove_and_get` of an absent key reports "nothing removed" rather than an error. */
  method RemoveAndGetAbsentTest<T>(dir: Path, key: string, codec: Codec<T, Bytes>) returns (removed: Result<Option<T>, ErrorKind>)
    ensures removed == Ok(None)
  {
    var store := new PkvStore.NewInDir(dir, map[]);
    removed := store.RemoveAndGet(key, codec, false);
  }

  /** A later `set` of the same key wins. */
  method OverwriteTest<T(!new)>(persisted: Table, key: string, v1: T, v2: T, codec: Codec<T, Bytes>) returns (ret: Result<T, ErrorKind>)
    requires RoundTrips(codec) && codec.encode(v1).Some? && codec.encode(v2).Some?
    ensures ret == Ok(v2)
  {
    var store := new PkvStore.NewInDir([], persisted);
    var set1 := store.Set(key, v1, codec, false);
    var set2 := store.Set(key, v2, codec, false);
    ret := store.Get(key, codec, false);
  }
}
