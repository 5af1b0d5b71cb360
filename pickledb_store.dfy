/**
 * The dump-on-write backend (src/pickledb_store.rs). PickleDb keeps the whole
 * map in memory and, with its auto-dump policy, rewrites the database file
 * after every change; when that dump fails it puts the changed entry back and
 * reports the error. Its `get` answers only "a value or nothing". `clear` has no
 * bulk primitive and removes keys one at a time from a snapshot of all keys.
 */
module PickleDbBackend {
  import opened Wrappers
  import opened Codecs
  import Pkv

  /** The engine's own error, reduced to its two causes here. */
  datatype EngineError = SerializationFailed | DumpFailed

  /** `GetError`; the engine variant is never produced by `get`. */
  datatype GetError = PickleDb(EngineError) | NotFound

  /** `SetError`. */
  datatype SetError = PickleDb(EngineError)

  function GetKind(e: GetError): (k: Pkv.ErrorKind) {
    match e
    case PickleDb(_) => Pkv.StorageIO
    case NotFound => Pkv.NotFound
  }

  /** A value that does not serialize is an encoding failure; a failed dump is a storage failure. */
  function SetKind(e: SetError): (k: Pkv.ErrorKind) {
    match e
    case PickleDb(SerializationFailed) => Pkv.Encode
    case PickleDb(DumpFailed) => Pkv.StorageIO
  }

  /** The keys of `s`. */
  function Elems(s: seq<string>): (e: set<string>)
    ensures forall k :: k in e <==> k in s
  {
    set k | k in s
  }

  predicate Distinct(s: seq<string>) {
    forall i, j :: 0 <= i < j < |s| ==> s[i] != s[j]
  }

  /** `keys` lists every key of `m` exactly once, in some order. */
  predicate Enumerates(keys: seq<string>, m: Pkv.Table) {
    Distinct(keys) && (forall k :: k in keys ==> k in m) && (forall k :: k in m ==> k in keys)
  }

  /**
   * The `clear` loop over the snapshot `keys`: each key is removed in turn; a
   * removal whose dump fails (its key is in `failing`) leaves that key in
   * place and ends the loop with the error. Returns the remaining records and
   * the result.
   */
  function ClearLoop(m: Pkv.Table, keys: seq<string>, failing: set<string>): (s: (Pkv.Table, Result<(), SetError>))
    decreases |keys|
  {
    if keys == [] then (m, Ok(()))
    else if keys[0] in m && keys[0] in failing then (m, Err(SetError.PickleDb(DumpFailed)))
    else ClearLoop(m - {keys[0]}, keys[1..], failing)
  }

  /**
   * What the loop leaves: on success, `m` without any of `keys`; on failure,
   * `m` without exactly the keys before the failing one, which stays.
   */
  lemma {:induction false} ClearLoopOutcome(m: Pkv.Table, keys: seq<string>, failing: set<string>)
    ensures ClearLoop(m, keys, failing).1.Ok? ==> ClearLoop(m, keys, failing).0 == m - Elems(keys)
    ensures ClearLoop(m, keys, failing).1.Err? ==>
              exists i :: 0 <= i < |keys| && keys[i] in failing && keys[i] in ClearLoop(m, keys, failing).0 &&
                          ClearLoop(m, keys, failing).0 == m - Elems(keys[..i])
    decreases |keys|
  {
    if keys == [] {
      assert m - Elems(keys) == m;
    } else if keys[0] in m && keys[0] in failing {
      assert keys[..0] == [];
      assert m - Elems(keys[..0]) == m;
    } else {
      var k := keys[0];
      ClearLoopOutcome(m - {k}, keys[1..], failing);
      var (rest, r) := ClearLoop(m - {k}, keys[1..], failing);
      assert ClearLoop(m, keys, failing) == (rest, r);
      if r.Ok? {
        assert rest == m - Elems(keys);
      } else {
        var j :| 0 <= j < |keys[1..]| && keys[1..][j] in failing && keys[1..][j] in rest &&
                 rest == (m - {k}) - Elems(keys[1..][..j]);
        assert keys[..j + 1] == [k] + keys[1..][..j];
        assert Elems(keys[..j + 1]) == {k} + Elems(keys[1..][..j]);
        assert rest == m - Elems(keys[..j + 1]);
        assert keys[j + 1] == keys[1..][j];
      }
    }
  }

  /** With no failing removal the loop always succeeds. */
  lemma {:induction false} ClearLoopSucceeds(m: Pkv.Table, keys: seq<string>, failing: set<string>)
    requires forall k :: k in keys ==> k !in failing
    ensures ClearLoop(m, keys, failing).1.Ok?
    decreases |keys|
  {
    if keys != [] {
      ClearLoopSucceeds(m - {keys[0]}, keys[1..], failing);
    }
  }

  /** Over a snapshot of all keys, success means the map is empty. */
  lemma ClearedOnSuccess(m: Pkv.Table, keys: seq<string>, failing: set<string>)
    requires Enumerates(keys, m)
    ensures ClearLoop(m, keys, failing).1.Ok? ==> ClearLoop(m, keys, failing).0 == map[]
  {
    ClearLoopOutcome(m, keys, failing);
  }

  /**
   * A successful `clear` does what the store's contract says `clear` does;
   * only a failing one departs from it.
   */
  lemma ClearMeetsContractOnSuccess(m: Pkv.Table, keys: seq<string>, failing: set<string>)
    requires Enumerates(keys, m)
    ensures ClearLoop(m, keys, failing).1.Ok? ==>
              (ClearLoop(m, keys, failing).0, ClearLoop(m, keys, failing).1.MapErr(SetKind)) == Pkv.ContractClear(m, false)
  {
    ClearedOnSuccess(m, keys, failing);
  }

  /**
   * The departure: a `clear` whose second removal fails leaves the store
   * neither as it was nor empty, which the contract's all-or-nothing `clear`
   * never does.
   */
  lemma PartialClearExample(a: string, b: string, ra: Bytes, rb: Bytes)
    requires a != b
    ensures var m := map[a := ra, b := rb];
            ClearLoop(m, [a, b], {b}) == (map[b := rb], Err(SetError.PickleDb(DumpFailed))) &&
            map[b := rb] != m && map[b := rb] != map[] &&
            forall clearFails :: ClearLoop(m, [a, b], {b}).0 != Pkv.ContractClear(m, clearFails).0
  {
    var m := map[a := ra, b := rb];
    assert [a, b][1..] == [b];
    assert m - {a} == map[b := rb];
    assert a !in map[b := rb];
  }

  /**
   * A failed clear is observable: something remains, nothing was added or
   * changed, and every key removed before the failure stays removed.
   */
  lemma PartialClearOnFailure(m: Pkv.Table, keys: seq<string>, failing: set<string>)
    requires Enumerates(keys, m)
    ensures ClearLoop(m, keys, failing).1.Err? ==>
              ClearLoop(m, keys, failing).0 != map[] &&
              (forall k :: k in ClearLoop(m, keys, failing).0 ==> k in m && ClearLoop(m, keys, failing).0[k] == m[k])
  {
    ClearLoopOutcome(m, keys, failing);
    var rest := ClearLoop(m, keys, failing).0;
    if ClearLoop(m, keys, failing).1.Err? {
      var i :| 0 <= i < |keys| && keys[i] in failing && keys[i] in rest && rest == m - Elems(keys[..i]);
      assert rest != map[];
    }
  }

  class PickleDBStore {
    const path: Pkv.Path
    var db: Pkv.Table

    /** `PickleDb::new` at `bevy_pickledb_pkv` in `dir`: a new database starts empty. */
    constructor(dir: Pkv.Path)
      ensures path == dir + ["bevy_pickledb_pkv"]
      ensures db == map[]
    {
      path := dir + ["bevy_pickledb_pkv"];
      db := map[];
    }

    /** Overwrites `key`; a serialization or dump failure is reported and leaves the map as it was. */
    method Set<T>(key: string, value: T, codec: Codec<T, Bytes>, dumpFails: bool) returns (r: Result<(), SetError>)
      modifies this
      ensures codec.encode(value).None? ==> r == Err(SetError.PickleDb(SerializationFailed)) && db == old(db)
      ensures codec.encode(value).Some? && dumpFails ==> r == Err(SetError.PickleDb(DumpFailed)) && db == old(db)
      ensures codec.encode(value).Some? && !dumpFails ==> r == Ok(()) && db == old(db)[key := codec.encode(value).value]
      ensures (db, r.MapErr(SetKind)) == Pkv.ContractSet(old(db), key, value, codec, dumpFails)
    {
      var bytes := codec.encode(value);
      if bytes.None? {
        return Err(SetError.PickleDb(SerializationFailed));
      }
      if dumpFails {
        return Err(SetError.PickleDb(DumpFailed));
      }
      db := db[key := bytes.value];
      r := Ok(());
    }

    /** `set_string` is `set::<String>` of the same text. */
    method SetString(key: string, value: string, strCodec: Codec<string, Bytes>, dumpFails: bool) returns (r: Result<(), SetError>)
      modifies this
      ensures strCodec.encode(value).None? ==> r == Err(SetError.PickleDb(SerializationFailed)) && db == old(db)
      ensures strCodec.encode(value).Some? && dumpFails ==> r == Err(SetError.PickleDb(DumpFailed)) && db == old(db)
      ensures strCodec.encode(value).Some? && !dumpFails ==> r == Ok(()) && db == old(db)[key := strCodec.encode(value).value]
      ensures (db, r.MapErr(SetKind)) == Pkv.ContractSet(old(db), key, value, strCodec, dumpFails)
    {
      r := Set(key, value, strCodec, dumpFails);
    }

    /**
     * The engine yields a value or nothing, so a record that does not decode is
     * reported as `NotFound`, like a missing key; otherwise `get` agrees with
     * the store's contract.
     */
    function Get<T>(key: string, codec: Codec<T, Bytes>): (r: Result<T, GetError>)
      reads this
      ensures r.Err? ==> r.error == GetError.NotFound
      ensures r.Ok? <==> key in db && codec.decode(db[key]).Some?
      ensures Pkv.ContractGet(db, key, codec, false).Ok? ==> r.MapErr(GetKind) == Pkv.ContractGet(db, key, codec, false)
      ensures Pkv.ContractGet(db, key, codec, false) == Err(Pkv.Decode) ==> r == Err(GetError.NotFound)
    {
      if key in db then
        match codec.decode(db[key])
        case Some(v) => Ok(v)
        case None => Err(GetError.NotFound)
      else Err(GetError.NotFound)
    }

    /** `get_all`: every key once, in the engine's (arbitrary) order. */
    method GetAll() returns (keys: seq<string>)
      ensures Enumerates(keys, db)
    {
      keys := [];
      var rest := db.Keys;
      while rest != {}
        invariant rest <= db.Keys
        invariant Distinct(keys)
        invariant forall k :: k in keys <==> k in db && k !in rest
        decreases rest
      {
        var k :| k in rest;
        keys := keys + [k];
        rest := rest - {k};
      }
    }

    /**
     * Removes the keys of a `get_all` snapshot one at a time and stops at the
     * first removal whose dump fails (keys in `failing`). `order` is the
     * snapshot the loop walked.
     */
    method Clear(failing: set<string>) returns (r: Result<(), SetError>, ghost order: seq<string>)
      modifies this
      ensures Enumerates(order, old(db))
      ensures (db, r) == ClearLoop(old(db), order, failing)
    {
      var keys := GetAll();
      order := keys;
      var i := 0;
      while i < |keys|
        invariant 0 <= i <= |keys|
        invariant ClearLoop(db, keys[i..], failing) == ClearLoop(old(db), keys, failing)
      {
        var key := keys[i];
        assert keys[i..][0] == key && keys[i..][1..] == keys[i + 1..];
        if key in db {
          if key in failing {
            // the dump after this removal failed: the entry is put back and the loop ends
            return Err(SetError.PickleDb(DumpFailed)), order;
          }
          db := db - {key};
        } else {
          assert db - {key} == db;
        }
        i := i + 1;
      }
      r := Ok(());
    }
  }

  /**
   * The facade's `clear` test on this backend, with no failing dump: both keys
   * read back before `clear` and are `NotFound` after.
   */
  method ClearTest(dir: Pkv.Path, key1: string, key2: string, value1: string, value2: string, strCodec: Codec<string, Bytes>)
    returns (before1: Result<string, GetError>, before2: Result<string, GetError>,
             after1: Result<string, GetError>, after2: Result<string, GetError>)
    requires key1 != key2
    requires RoundTrips(strCodec) && strCodec.encode(value1).Some? && strCodec.encode(value2).Some?
    ensures before1 == Ok(value1) && before2 == Ok(value2)
    ensures after1 == Err(GetError.NotFound) && after2 == Err(GetError.NotFound)
  {
    var store := new PickleDBStore(dir);
    var set1 := store.SetString(key1, value1, strCodec, false);
    var set2 := store.SetString(key2, value2, strCodec, false);
    before1 := store.Get(key1, strCodec);
    before2 := store.Get(key2, strCodec);
    var before := store.db;
    var cleared, order := store.Clear({});
    ClearLoopSucceeds(before, order, {});
    ClearedOnSuccess(before, order, {});
    after1 := store.Get(key1, strCodec);
    after2 := store.Get(key2, strCodec);
  }
}
