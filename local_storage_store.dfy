/**
 * The browser backend (src/local_storage_store.rs). The browser's localStorage
 * is a map from keys to text. `set` stores the value's JSON text, `set_string`
 * stores the text itself. `get` decodes the stored text as JSON and unwraps the
 * result, so text that is not JSON for the requested type stops the program
 * instead of producing an error. Host failures of `getItem` and `setItem` are
 * parameters carrying the host's error value.
 */
module LocalStorageBackend {
  import opened Wrappers
  import opened Codecs
  import Json
  import Pkv

  /** An error value thrown by the host. */
  datatype JsValue = JsValue(message: string)

  /** `GetError`: there is no variant for text that does not decode. */
  datatype GetError = NotFound | GetItem(JsValue)

  /** `SetError`. */
  datatype SetError = SetItem(JsValue) | Json

  /** How a call to `get` ends: it returns, or the `unwrap` of a failed decode panics. */
  datatype GetOutcome<T> = Returned(result: Result<T, GetError>) | Panicked

  function GetKind(e: GetError): (k: Pkv.ErrorKind) {
    match e
    case NotFound => Pkv.NotFound
    case GetItem(_) => Pkv.StorageIO
  }

  /** The kind of failure in the store's taxonomy each `SetError` stands for. */
  function SetKind(e: SetError): (k: Pkv.ErrorKind) {
    match e
    case SetItem(_) => Pkv.StorageIO
    case Json => Pkv.Encode
  }

  /** Text stored as itself, which is what `set_string` does with its argument. */
  function RawText(): (c: Codec<string, string>)
    ensures forall s :: c.encode(s) == Some(s)
  {
    Codec(s => Some(s), s => Some(s))
  }

  class LocalStorageStore {
    /** The browser's localStorage. */
    var storage: map<string, string>

    /** Opens the store over what the browser already holds. */
    constructor(existing: map<string, string>)
      ensures storage == existing
    {
      storage := existing;
    }

    /** Stores `value` verbatim; a `setItem` failure (`hostError`) is returned as `SetItem`. */
    method SetString(key: string, value: string, hostError: Option<JsValue>) returns (r: Result<(), SetError>)
      modifies this
      ensures hostError.Some? ==> r == Err(SetItem(hostError.value)) && storage == old(storage)
      ensures hostError.None? ==> r == Ok(()) && storage == old(storage)[key := value]
      ensures (storage, r.MapErr(SetKind)) == Pkv.ContractSet(old(storage), key, value, RawText(), hostError.Some?)
    {
      if hostError.Some? {
        return Err(SetItem(hostError.value));
      }
      storage := storage[key := value];
      r := Ok(());
    }

    /** Stores the JSON text of `value`; an encoding failure returns `Json` before storage is touched. */
    method Set<T>(key: string, value: T, json: Codec<T, string>, hostError: Option<JsValue>) returns (r: Result<(), SetError>)
      modifies this
      ensures json.encode(value).None? ==> r == Err(SetError.Json) && storage == old(storage)
      ensures json.encode(value).Some? && hostError.Some? ==> r == Err(SetItem(hostError.value)) && storage == old(storage)
      ensures json.encode(value).Some? && hostError.None? ==> r == Ok(()) && storage == old(storage)[key := json.encode(value).value]
      ensures (storage, r.MapErr(SetKind)) == Pkv.ContractSet(old(storage), key, value, json, hostError.Some?)
    {
      var text := json.encode(value);
      if text.None? {
        return Err(SetError.Json);
      }
      if hostError.Some? {
        return Err(SetItem(hostError.value));
      }
      storage := storage[key := text.value];
      r := Ok(());
    }

    /**
     * `set_string` as the store's trait default defines it: `set` of the text
     * as a `String`, so the record is the text's JSON form.
     */
    method SetStringAsJson(key: string, value: string, hostError: Option<JsValue>) returns (r: Result<(), SetError>)
      modifies this
      ensures hostError.Some? ==> r == Err(SetItem(hostError.value)) && storage == old(storage)
      ensures hostError.None? ==> r == Ok(()) && storage == old(storage)[key := Json.Quote(value)]
      ensures (storage, r.MapErr(SetKind)) == Pkv.ContractSet(old(storage), key, value, Json.JsonString(), hostError.Some?)
    {
      r := Set(key, value, Json.JsonString(), hostError);
    }

    /**
     * A `getItem` failure is `GetItem`, a missing key `NotFound`, stored text
     * that is not JSON for `T` a panic; whenever it returns, it agrees with the
     * store's contract.
     */
    function Get<T>(key: string, json: Codec<T, string>, hostError: Option<JsValue>): (r: GetOutcome<T>)
      reads this
      ensures hostError.Some? ==> r == Returned(Err(GetItem(hostError.value)))
      ensures hostError.None? && key !in storage ==> r == Returned(Err(GetError.NotFound))
      ensures r == Panicked <==> hostError.None? && key in storage && json.decode(storage[key]).None?
      ensures r.Returned? ==> r.result.MapErr(GetKind) == Pkv.ContractGet(storage, key, json, hostError.Some?)
    {
      if hostError.Some? then Returned(Err(GetItem(hostError.value)))
      else if key !in storage then Returned(Err(GetError.NotFound))
      else match json.decode(storage[key])
        case None => Panicked
        case Some(v) => Returned(Ok(v))
    }
  }

  /** `set` then `get` gives the value back through JSON, for any codec that round-trips. */
  method SetThenGet<T(!new)>(existing: map<string, string>, key: string, value: T, json: Codec<T, string>)
    returns (ret: GetOutcome<T>)
    requires RoundTrips(json) && json.encode(value).Some?
    ensures ret == Returned(Ok(value))
  {
    var store := new LocalStorageStore(existing);
    var written := store.Set(key, value, json, None);
    ret := store.Get(key, json, None);
  }

  /** `set` then `get::<String>` with serde_json's string form gives back the text. */
  method SetThenGetString(existing: map<string, string>, key: string, value: string) returns (ret: GetOutcome<string>)
    ensures ret == Returned(Ok(value))
  {
    var store := new LocalStorageStore(existing);
    var written := store.Set(key, value, Json.JsonString(), None);
    Json.UnquoteQuote(value);
    ret := store.Get(key, Json.JsonString(), None);
  }

  /**
   * `set_string` of text that does not open a JSON string (no leading quote or
   * whitespace), then `get::<String>`: the decode fails and `get` panics.
   */
  method SetStringThenGetPanics(existing: map<string, string>, key: string, value: string) returns (ret: GetOutcome<string>)
    requires value == [] || (value[0] != '"' && !Json.IsWhitespace(value[0]))
    ensures ret == Panicked
  {
    var store := new LocalStorageStore(existing);
    var written := store.SetString(key, value, None);
    Json.PlainTextIsNotJson(value);
    ret := store.Get(key, Json.JsonString(), None);
  }

  /**
   * The facade's `set_string` test on this backend, as written: `set_string`
   * stores "goodbye" verbatim, and `get::<String>` of it panics.
   */
  method SetStringTestAsWritten(existing: map<string, string>) returns (ret: GetOutcome<string>)
    ensures ret == Panicked
  {
    ret := SetStringThenGetPanics(existing, "hello", "goodbye");
  }

  /** The same test with `set_string` writing JSON: "goodbye" reads back. */
  method SetStringTestCorrected(existing: map<string, string>) returns (ret: GetOutcome<string>)
    ensures ret == Returned(Ok("goodbye"))
  {
    var store := new LocalStorageStore(existing);
    var written := store.SetStringAsJson("hello", "goodbye", None);
    Json.UnquoteQuote("goodbye");
    ret := store.Get("hello", Json.JsonString(), None);
  }

  /** `set_string` and `set` of the same string leave different records. */
  method SetStringDiffersFromSet(existing: map<string, string>, key: string, value: string)
    returns (viaSetString: string, viaSet: string)
    ensures viaSetString == value
    ensures viaSet == Json.Quote(value)
    ensures viaSetString != viaSet
  {
    var store := new LocalStorageStore(existing);
    var first := store.SetString(key, value, None);
    viaSetString := store.storage[key];
    var second := store.Set(key, value, Json.JsonString(), None);
    viaSet := store.storage[key];
    Json.QuoteChangesText(value);
  }
}
