# bevy_pkv in Dafny

bevy_pkv is a persistent key-value store for the Bevy game engine. A `PkvStore` maps
string keys to serialized values. Each value is written with `set` (or `set_string` for
text), read back with `get::<T>`, deleted with `remove` or `remove_and_get`, and
`clear` wipes the whole store. The store forwards every call to one storage backend,
chosen when the crate is built:

- redb: transactional, one table;
- sled: a log-structured tree;
- pickledb: an in-memory map that is dumped to a file after each change;
- the browser's localStorage: text only, values stored as JSON.

On top of the store, `PersistentResourcePlugin` keeps one Bevy resource in sync with
the store. At startup it loads the resource under its type name, or creates it with a
factory when the load fails. Afterwards it saves the resource whenever the resource
changes, and it drops the error if a save fails.

The model is made of these modules:

- `Pkv` (pkv.dfy) models the facade. It is a class over `map<string, Bytes>`, written
  against the contract every backend is meant to honour. `Pkv.ContractGet`,
  `Pkv.ContractSet` and `Pkv.ContractClear` state that contract for `get`, `set` and
  `clear`, and the facade's operations are proved to follow them. The crate's own
  tests are restated as methods that open a fresh store and prove the tests'
  assertions.
- `Codecs` (codecs.dfy) holds the serializer. A `Codec` is a pair of partial functions
  (`encode`, `decode`). `RoundTrips(c)` says that decoding what `encode` produced gives
  the value back. It is assumed where a proof needs it, as the crate assumes it of
  serde.
- `RedbBackend`, `SledBackend`, `PickleDbBackend` and `LocalStorageBackend` model the
  four backends. Each has its own error enums and its own stored state.
  - `GetKind` and `SetKind` map each backend error to a kind of failure in the shared
    taxonomy.
  - Each backend's `get`, `set`, `set_string` and `clear` is tied to the contract
    functions through these maps. The ties show where the facade's behaviour is the
    backend's, and where the backend departs from the contract:
  - redb: while its table does not exist, `get` reports a table error (see Findings).
  - pickledb: a record that does not decode reads as `NotFound`. Its `clear` is a loop
    that can stop part-way, proved against the specification function
    `PickleDbBackend.ClearLoop`. `PickleDb::new` creates a new, empty database rather
    than loading the existing file, so records written before a restart are not seen
    afterwards. With this backend the resource lifecycle always starts from the
    factory's value.
  - localStorage: a record that does not decode makes `get` panic. `set_string` stores
    the raw text, not its JSON form (see Findings).
- `Json` (json.dfy) gives serde_json's text form of strings: escaping, parsing, and the
  round trip between them. This is what makes the difference between `set` and
  `set_string` on localStorage provable.
- `PersistentResource` (persistent_resource.dfy) models the plugin lifecycle. The host's
  change detection is an explicit `changed` flag: inserting or mutating the resource
  sets it, and each `PostUpdate` consumes it.

Engine failures are inputs to the operations, never chosen by the model:

- `writeFails` / `readFails` (facade);
- `failAt` / `fault`, the redb transaction step that fails;
- `insertFails` / `clearFails` (sled);
- `dumpFails` / `failing` (pickledb);
- `hostError` (localStorage).

## Model

| member | source | states |
|---|---|---|
| Pkv.ContractGet | src/lib.rs:138-142 | `get` is `NotFound` exactly when the key is absent, a decode error exactly when the stored record does not decode as `T`, and otherwise the decoded value; a failing engine read is a storage error |
| Pkv.PkvStore.New | src/lib.rs:89-96 | the store is located by the platform default with no qualifier and the given organization and application |
| Pkv.PkvStore.NewWithQualifier | src/lib.rs:103-110 | the same, with `Some(qualifier)` |
| Pkv.PkvStore.NewInDir | src/lib.rs:118-121 | the store is located at the given directory |
| Pkv.ContractSet | src/lib.rs:128-131 | `set` is an encoding error exactly when the value does not encode and a storage error exactly when the write fails, both leaving the records unchanged; otherwise the key maps to the encoded value and no other key changes |
| Pkv.ContractClear | src/lib.rs:157-161 | `clear` succeeds exactly when the engine call does, leaving no record; a failure leaves every record |
| Pkv.SetThenGet | src/lib.rs:128-142 | after a successful `set`, `get` of the key returns the value written, and `get` of every other key answers as before |
| Pkv.ClearThenGet | src/lib.rs:157-161 | after a successful `clear`, `get` of any key is `NotFound` |
| Pkv.PkvStore.Set | src/lib.rs:128-131 | the records and result are those `ContractSet` gives for the records before |
| Pkv.PkvStore.SetString | src/lib.rs:27-29 | `set_string` is `set` of the same text as a `String`: `ContractSet` with the string codec |
| Pkv.PkvStore.Get | src/lib.rs:138-142 | `NotFound` exactly when the key does not exist; a value returned is the decoding of the stored record |
| Pkv.PkvStore.Remove | src/lib.rs:152-155 | the key is absent afterwards and nothing else changes |
| Pkv.PkvStore.RemoveAndGet | src/lib.rs:143-150 | a present, decodable key is removed and its value returned as `Some`; an absent key gives `Ok(None)` and changes nothing |
| Pkv.PkvStore.Clear | src/lib.rs:157-161 | the records and result are those `ContractClear` gives: on success no record remains |
| Pkv.SetStringTest | src/lib.rs:184-191 | text stored with `set_string` reads back with `get::<String>` |
| Pkv.NewInDirTest | src/lib.rs:193-211 | a store in an explicit directory reads back what was stored |
| Pkv.EmptyDbNotFoundTest | src/lib.rs:213-227 | a fresh, empty store answers `NotFound` for any key |
| Pkv.ClearTest | src/lib.rs:229-249 | two stored keys read back before `clear` and are `NotFound` after |
| Pkv.SetTest | src/lib.rs:257-267 | a typed value reads back equal |
| Pkv.RemoveTest | src/lib.rs:269-280 | after `set` and `remove`, `get` yields no value |
| Pkv.RemoveAndGetTest | src/lib.rs:282-294 | `remove_and_get` returns the stored value and the key is gone afterwards |
| Pkv.RemoveAndGetAbsentTest | src/lib.rs:143-150 | `remove_and_get` of an absent key is `Ok(None)`, not an error |
| Pkv.OverwriteTest | src/lib.rs:128-131 | the later of two `set`s to one key wins |
| Json.Quote | src/local_storage_store.rs:53 | the JSON text of a string is enclosed in double quotes and longer than the string |
| Json.UnquoteQuote | src/local_storage_store.rs:48-53 | parsing serde_json's text of a string gives the string back |
| Json.JsonStringRoundTrips | src/local_storage_store.rs:44-56 | the JSON codec for strings round-trips |
| Json.PlainTextIsNotJson | src/local_storage_store.rs:48 | text that does not start with a quote or whitespace is not a JSON string |
| Json.QuoteChangesText | src/local_storage_store.rs:38-41 | no string's JSON text equals the string itself |
| RedbBackend.ReDbStore.constructor | src/redb_store.rs:57-64 | the database file is `bevy_pkv.redb` in the location's directory |
| RedbBackend.InsertError | src/redb_store.rs:38-54 | a failing begin, insert or commit of `set` converts into its `SetError` variant, which is a storage failure, never an encoding one |
| RedbBackend.ClearError | src/redb_store.rs:38-54 | a failing begin, table deletion or commit of `clear` converts into its `SetError` variant, which is a storage failure |
| RedbBackend.ReDbStore.Write | src/redb_store.rs:77-82 | a failing begin, insert or commit returns its error and leaves the table as it was; otherwise the table (created if missing) maps the key to the bytes |
| RedbBackend.ReDbStore.Set | src/redb_store.rs:74-85 | serializes before beginning the transaction: an encode failure is `MessagePack` with the table unchanged; otherwise as `Write`; the visible records and the error kind are those of `Pkv.ContractSet` |
| RedbBackend.ReDbStore.SetString | src/redb_store.rs:88-98 | the text's bytes are written as `set` writes them, agreeing with `Pkv.ContractSet` |
| RedbBackend.ReDbStore.Get | src/redb_store.rs:102-109 | once the table exists, `get` agrees with the store's contract (missing key `NotFound`, undecodable `MessagePack`); while it does not exist, every key is a table error |
| RedbBackend.ReDbStore.GetOrNotFound | src/redb_store.rs:100-109 | with a missing table read as empty, `get` agrees with the store's contract for every table state |
| RedbBackend.ReDbStore.Clear | src/redb_store.rs:112-117 | a committed `clear` deletes the table; a failing step returns its error with the table unchanged; the visible records and the error kind are those of `Pkv.ContractClear` |
| RedbBackend.ClearedStoreHasNoValues | src/redb_store.rs:112-117 | after `clear`, no key reads back a value |
| RedbBackend.EmptyDbGetAsWritten | src/redb_store.rs:102-105 | on a fresh database, `get` as written reports a table error |
| RedbBackend.EmptyDbGetCorrected | src/lib.rs:213-227 | on a fresh database, the corrected `get` reports `NotFound` |
| RedbBackend.ClearTest | src/lib.rs:229-249 | through the corrected `get`, two stored keys read back before `clear` and are `NotFound` after |
| SledBackend.DirsQuery | src/sled_store.rs:33-37 | a missing qualifier is passed to the directory lookup as the empty string; organization and application unchanged |
| SledBackend.DbPath | src/sled_store.rs:38-42 | the database path ends in `bevy_pkv.sled`, under the data directory or `.` when the platform has none |
| SledBackend.MissingQualifierIsEmpty | src/sled_store.rs:34 | no qualifier and an empty qualifier open the same database |
| SledBackend.SledStore.constructor | src/sled_store.rs:32-45 | the store opens at `DbPath` |
| SledBackend.SledStore.Set | src/sled_store.rs:53-58 | an encode failure is `MessagePack` and nothing is inserted; otherwise only the key's record changes; records and error kind are those of `Pkv.ContractSet` |
| SledBackend.SledStore.SetString | src/sled_store.rs:61-65 | the same for the text's bytes, agreeing with `Pkv.ContractSet` |
| SledBackend.SledStore.Get | src/sled_store.rs:69-73 | agrees with the store's contract: missing key `NotFound`, undecodable `MessagePack`, failing read `Sled` |
| SledBackend.SledStore.Clear | src/sled_store.rs:77-80 | on success the database is empty; records and error kind are those of `Pkv.ContractClear` |
| SledBackend.ClearThenGet | src/sled_store.rs:77-80 | after `clear`, `get` of any key is `NotFound` |
| PickleDbBackend.PickleDBStore.constructor | src/pickledb_store.rs:36-44 | the database file is `bevy_pickledb_pkv` in the location's directory; a new database is empty |
| PickleDbBackend.PickleDBStore.Set | src/pickledb_store.rs:52-55 | overwrites the key; serialization and dump failures are `PickleDb` errors with the map unchanged; records and error kind are those of `Pkv.ContractSet` |
| PickleDbBackend.PickleDBStore.SetString | src/pickledb_store.rs:58-61 | writes the same record as `set` of the text, agreeing with `Pkv.ContractSet` |
| PickleDbBackend.PickleDBStore.Get | src/pickledb_store.rs:65-68 | returns only `NotFound` as an error: for a missing key and also for a record that does not decode; agrees with the contract whenever that succeeds |
| PickleDbBackend.PickleDBStore.GetAll | src/pickledb_store.rs:73 | the snapshot lists every key exactly once |
| PickleDbBackend.PickleDBStore.Clear | src/pickledb_store.rs:72-78 | the loop walks a snapshot of all keys and ends in the state and result of `ClearLoop` on it |
| PickleDbBackend.ClearLoopOutcome | src/pickledb_store.rs:73-75 | on success every snapshot key is removed; on failure exactly the keys before the failing one are removed and the failing key stays |
| PickleDbBackend.ClearLoopSucceeds | src/pickledb_store.rs:73-77 | with no failing removal, `clear` succeeds |
| PickleDbBackend.ClearedOnSuccess | src/pickledb_store.rs:72-78 | a successful `clear` leaves no key |
| PickleDbBackend.PartialClearOnFailure | src/pickledb_store.rs:73-75 | a failed `clear` leaves a non-empty subset of the old records, unchanged |
| PickleDbBackend.ClearMeetsContractOnSuccess | src/pickledb_store.rs:72-78 | a successful `clear` gives what `Pkv.ContractClear` gives |
| PickleDbBackend.PartialClearExample | src/pickledb_store.rs:73-75 | with two keys and a failing second removal, `clear` leaves only the second key: neither the old records nor none, unlike the contract's `clear` |
| PickleDbBackend.ClearTest | src/lib.rs:229-249 | both keys read back before `clear` and are `NotFound` after |
| LocalStorageBackend.LocalStorageStore.SetString | src/local_storage_store.rs:38-42 | stores the text verbatim (`Pkv.ContractSet` with the text as its own record); a `setItem` failure is `SetItem` with storage unchanged |
| LocalStorageBackend.LocalStorageStore.Set | src/local_storage_store.rs:52-57 | stores the JSON text; an encode failure is `Json` before storage is touched; a `setItem` failure is `SetItem`; records and error kind are those of `Pkv.ContractSet` with the JSON codec |
| LocalStorageBackend.LocalStorageStore.SetStringAsJson | src/lib.rs:27-29 | the corrected `set_string`: `set` of the text as a `String`, storing its JSON form |
| LocalStorageBackend.LocalStorageStore.Get | src/local_storage_store.rs:44-50 | a `getItem` failure is `GetItem`, a missing key `NotFound`; it panics exactly when the stored text does not decode; whenever it returns it agrees with the contract |
| LocalStorageBackend.SetThenGet | src/local_storage_store.rs:44-57 | `set` then `get` returns the value through JSON |
| LocalStorageBackend.SetThenGetString | src/local_storage_store.rs:44-57 | the same for strings with serde_json's string form |
| LocalStorageBackend.SetStringThenGetPanics | src/local_storage_store.rs:38-48 | `set_string` of plain text then `get::<String>` panics |
| LocalStorageBackend.SetStringTestAsWritten | src/lib.rs:184-191 | the `set_string` test on this backend as written: `get::<String>("hello")` panics |
| LocalStorageBackend.SetStringTestCorrected | src/lib.rs:184-191 | the same test with the corrected `set_string`: "goodbye" reads back |
| LocalStorageBackend.SetStringDiffersFromSet | src/local_storage_store.rs:38-55 | `set_string` stores the text itself and `set` its quoted JSON form, and the two differ |
| PersistentResource.LoadOrDefault | src/persistent_resource.rs:128-134 | the loaded value when the load succeeded, the factory's value on any error |
| PersistentResource.SaveResource | src/persistent_resource.rs:140-148 | writes the resource under the key; a failed write changes nothing and is not propagated |
| PersistentResource.App.Mutate | src/persistent_resource.rs:136 | a mutation replaces the resource and marks it changed |
| PersistentResource.App.PostUpdate | src/persistent_resource.rs:136 | the save runs only when the resource changed, under its type name; the resource itself is never changed by it |
| PersistentResource.PersistentResourcePlugin.New | src/persistent_resource.rs:83-88 | the factory is present and yields `T::default()` |
| PersistentResource.PersistentResourcePlugin.WithDefault | src/persistent_resource.rs:101-109 | the factory is present and is the one given |
| PersistentResource.PersistentResourcePlugin.Build | src/persistent_resource.rs:125-137 | inserts the loaded value when `get` under the type name succeeds and the factory's value when it fails; marks the resource changed; the store is not written |
| PersistentResource.FirstRun | src/persistent_resource.rs:125-136 | with nothing stored, the default is inserted, `build` leaves the store as it was, and the first `PostUpdate` saves the default |
| PersistentResource.LoadsStoredValue | src/persistent_resource.rs:126-128 | a stored value is loaded instead of the default |
| PersistentResource.ReadFailureUsesDefault | src/persistent_resource.rs:128-134 | a failing read falls back to the factory and writes nothing |
| PersistentResource.UndecodableRecordIsReplaced | src/persistent_resource.rs:128-134 | a record that does not decode falls back to the factory, and the first save overwrites it |
| PersistentResource.FailedSaveIsDropped | src/persistent_resource.rs:145-147 | a failed save keeps the resource and the old record, and the next change is saved |
| PersistentResource.NoChangeNoSave | src/persistent_resource.rs:136 | without a change nothing is saved, so a record written by someone else stays |

## Left out

- The storage engines are abstract.
  - redb, sled and pickledb are each a map of records.
  - localStorage is a map of texts.
  - Their failures are inputs to each operation.
  - File formats, durability and crash behaviour are not modelled.
- Serializer layouts are abstract.
  - MessagePack is an abstract `Codec` with the round-trip property as a hypothesis.
  - The two MessagePack encoder settings in redb and sled (`with_struct_map` for `set`, `to_vec` for `set_string`) are left out.
  - pickledb's `Bin` serialization is abstract too.
  - JSON is concrete only for strings; other types use an abstract codec.
- Json.Unquote: it refuses `\u` escapes of surrogate halves, so it does not accept the surrogate pairs serde_json reads for characters outside the Basic Multilingual Plane. It is weaker only on input serde_json never writes, because serde_json writes those characters verbatim.
- Directory resolution is not modelled.
  - `Location::get_path` (src/path.rs) is not part of this model: redb and pickledb take the resolved directory as a parameter.
  - sled's `ProjectDirs` lookup is a function parameter.
  - `create_dir_all` is left out.
- Panics and the crate's cfg selection are not modelled.
  - The `expect`/`unwrap` panics when a store cannot be opened are left out.
  - So are the panics when localStorage is unavailable (`storage()`) and when redb cannot open its table in a write transaction.
  - Every store is assumed to open.
  - The `compile_error!` feature gates, build.rs, src/stores/mod.rs, src/prelude.rs and the `Debug` impls have no behaviour.
  - The rocksdb backend (src/rocksdb_store.rs) is not part of this model.
- `remove` and `remove_and_get` exist only in the facade. No backend shown implements them, so they are modelled from the facade's doc comments and tests, with the shared error kinds standing for `RemoveError`.
- Pkv.PkvStore.SetString: it follows the trait default, `set` of the text as a `String`. The localStorage backend's own `set_string` stores the raw text instead (see Findings), so `Pkv.SetStringTest` and `Pkv.ClearTest` hold for the contract but not for that backend.
- PersistentResource.Build: the lifecycle is modelled over the facade's contract. On the localStorage backend a stored record that does not decode makes `get`, and so `build`, panic, so `PersistentResource.UndecodableRecordIsReplaced` does not hold there.
- Pkv.PkvStore.Clear: a failure leaves the records unchanged. The facade cannot say more for every backend; pickledb's partial clear is modelled in its own module.
- SledBackend.SledStore.Clear: a failing engine `clear` leaves the database unchanged. Whether sled can fail part-way through is engine behaviour that is not modelled.
- RedbBackend.ReDbStore.Get: a failing lookup is only stated to be an error. Which error it yields depends on the engine, so it is not stated.
- PickleDbBackend.PickleDBStore.Get: when it succeeds, it is stated to agree with the contract. It is not stated to fail with a storage error on a failing read, because pickledb's in-memory `get` has no failure other than "no value".
- Bevy plumbing is replaced.
  - The scheduler, plugin registration and change ticks are replaced by the `changed` flag and explicit `PostUpdate` calls.
  - Insertion at build counts as a change, as Bevy's change detection treats it.
  - `type_name::<T>()` is a string field of the app.
  - `eprintln!` of a failed save is not modelled.
- The extension trait `PersistentResourceAppExtensions` (src/persistent_resource.rs:150-239) only forwards to the two constructors. The plugin's `Default` impl (src/persistent_resource.rs:112-119) is `new`. Neither is modelled separately.
- The examples and serde's alias-based migration are not modelled.

## Findings

| source | as written | input that shows it | evidently intended | confidence | as-written member | corrected member |
|---|---|---|---|---|---|---|
| src/redb_store.rs:104 | `get` opens the table in a read transaction and propagates the error when the table does not exist, so a database with no table yet answers every key with a table error | a database freshly created in an empty directory (the `empty_db_not_found` test, src/lib.rs:213-227), or any database after `clear` deleted the table, then `get("not_there")` | a missing table reads as an empty one, so `get` answers `NotFound` as documented at src/redb_store.rs:101 | medium, not executed; relies on redb refusing to open a missing table in a read transaction | RedbBackend.EmptyDbGetAsWritten | RedbBackend.EmptyDbGetCorrected |
| src/local_storage_store.rs:38-41 | `set_string` stores the text verbatim, while `get` parses the stored text as JSON and unwraps the result (src/local_storage_store.rs:48) | the `set_string` test (src/lib.rs:184-191, not gated by backend): `set_string("hello", "goodbye")` then `get::<String>("hello")` panics, because `goodbye` is not JSON | `set_string` is `set::<String>` of the text, as the trait default (src/lib.rs:27-29) and the facade's doc (src/lib.rs:133) say, so the record is `"goodbye"` in quotes and reads back | medium, not executed; the localStorage backend may have meant raw text for other readers of the browser's storage | LocalStorageBackend.SetStringTestAsWritten | LocalStorageBackend.SetStringTestCorrected |
