/**
 * The persistence lifecycle of one resource (src/persistent_resource.rs).
 * Building the plugin loads the resource from the store under its type name, or
 * creates it with the plugin's factory when the load fails for any reason, and
 * registers a save that runs in `PostUpdate` whenever the resource changed. The
 * host's change detection is the `changed` flag of `App`: inserting or mutating
 * the resource sets it, and each `PostUpdate` consumes it.
 */
module PersistentResource {
  import opened Wrappers
  import opened Codecs
  import Pkv

  /** The resource `build` inserts: the loaded value when the load succeeded, the factory's otherwise. */
  function LoadOrDefault<T>(loaded: Result<T, Pkv.ErrorKind>, factory: () -> T): (v: T)
    ensures loaded.Ok? ==> v == loaded.value
    ensures loaded.Err? ==> v == factory()
  {
    match loaded
    case Ok(v) => v
    case Err(_) => factory()
  }

  /** `save_resource`: writes `resource` under `key`; a failed write is reported and dropped. */
  method SaveResource<T>(key: string, resource: T, pkv: Pkv.PkvStore, codec: Codec<T, Bytes>, writeFails: bool)
    modifies pkv
    ensures codec.encode(resource).Some? && !writeFails ==> pkv.inner == old(pkv.inner)[key := codec.encode(resource).value]
    ensures codec.encode(resource).None? || writeFails ==> pkv.inner == old(pkv.inner)
  {
    var r := pkv.Set(key, resource, codec, writeFails);
    // an error is only printed
  }

  /** The parts of the host application the plugin touches, for one resource type `T`. */
  class App<T> {
    /** The `PkvStore` resource. */
    const store: Pkv.PkvStore
    /** `type_name::<T>()`, the key under which the resource is loaded and saved. */
    const typeName: string
    /** How `T` is serialized. */
    const codec: Codec<T, Bytes>
    /** The resource, once inserted. */
    var resource: Option<T>
    /** Whether the resource was inserted or mutated since the last `PostUpdate`. */
    var changed: bool

    constructor(store: Pkv.PkvStore, typeName: string, codec: Codec<T, Bytes>)
      ensures this.store == store && this.typeName == typeName && this.codec == codec
      ensures resource == None && !changed
    {
      this.store := store;
      this.typeName := typeName;
      this.codec := codec;
      resource := None;
      changed := false;
    }

    /** A system writes the resource through mutable access, which marks it changed. */
    method Mutate(v: T)
      requires resource.Some?
      modifies this
      ensures resource == Some(v) && changed
    {
      resource := Some(v);
      changed := true;
    }

    /** One `PostUpdate`: the save runs when the resource exists and changed, and the change is then seen. */
    method PostUpdate(writeFails: bool)
      modifies this, store
      ensures resource == old(resource) && !changed
      ensures old(changed) && resource.Some? && codec.encode(resource.value).Some? && !writeFails ==>
                store.inner == old(store.inner)[typeName := codec.encode(resource.value).value]
      ensures !old(changed) || resource.None? || codec.encode(resource.value).None? || writeFails ==>
                store.inner == old(store.inner)
    {
      if changed && resource.Some? {
        SaveResource(typeName, resource.value, store, codec, writeFails);
      }
      changed := false;
    }
  }

  class PersistentResourcePlugin<T> {
    /** How a value is made when nothing usable is stored. */
    const factory: Option<() -> T>

    /** `new`: the factory yields `T::default()`, given here as `defaultValue`. */
    constructor New(defaultValue: T)
      ensures factory.Some? && factory.value() == defaultValue
    {
      factory := Some(() => defaultValue);
    }

    /** `with_default`: the given factory. */
    constructor WithDefault(f: () -> T)
      ensures factory == Some(f)
    {
      factory := Some(f);
    }

    /**
     * `build`: loads the resource under its type name or falls back to the
     * factory, inserts it (which counts as a change) and leaves the store
     * untouched. `readFails` is a failing engine read.
     */
    method Build(app: App<T>, readFails: bool)
      requires factory.Some?
      modifies app
      ensures app.store.Get(app.typeName, app.codec, readFails).Ok? ==>
                app.resource == Some(app.store.Get(app.typeName, app.codec, readFails).value)
      ensures app.store.Get(app.typeName, app.codec, readFails).Err? ==> app.resource == Some(factory.value())
      ensures app.changed
      ensures app.store.inner == old(app.store.inner)
    {
      var loaded := app.store.Get(app.typeName, app.codec, readFails);
      app.resource := Some(LoadOrDefault(loaded, factory.value));
      app.changed := true;
    }
  }

  // Lifecycles, each from a freshly opened store holding `persisted`.

  /**
   * First run: nothing stored under the type name, so the default is used; the
   * store is untouched by `build` and holds the default after the first `PostUpdate`.
   */
  method FirstRun<T(!new)>(persisted: Pkv.Table, typeName: string, codec: Codec<T, Bytes>, defaultValue: T)
    returns (inserted: Option<T>, afterBuild: Pkv.Table, saved: Result<T, Pkv.ErrorKind>)
    requires typeName !in persisted
    requires RoundTrips(codec) && codec.encode(defaultValue).Some?
    ensures inserted == Some(defaultValue)
    ensures afterBuild == persisted
    ensures saved == Ok(defaultValue)
  {
    var store := new Pkv.PkvStore.New("MyGame", "Settings", persisted);
    var app := new App(store, typeName, codec);
    var plugin := new PersistentResourcePlugin.New(defaultValue);
    plugin.Build(app, false);
    inserted := app.resource;
    afterBuild := store.inner;
    app.PostUpdate(false);
    saved := store.Get(typeName, codec, false);
  }

  /** A stored value is loaded instead of the default. */
  method LoadsStoredValue<T(!new)>(typeName: string, codec: Codec<T, Bytes>, stored: T, f: () -> T)
    returns (inserted: Option<T>)
    requires RoundTrips(codec) && codec.encode(stored).Some?
    ensures inserted == Some(stored)
  {
    var store := new Pkv.PkvStore.New("MyGame", "Settings", map[typeName := codec.encode(stored).value]);
    var app := new App(store, typeName, codec);
    var plugin := new PersistentResourcePlugin.WithDefault(f);
    plugin.Build(app, false);
    inserted := app.resource;
  }

  /** A failing read falls back to the factory even when a value is stored. */
  method ReadFailureUsesDefault<T>(persisted: Pkv.Table, typeName: string, codec: Codec<T, Bytes>, f: () -> T)
    returns (inserted: Option<T>, afterBuild: Pkv.Table)
    ensures inserted == Some(f())
    ensures afterBuild == persisted
  {
    var store := new Pkv.PkvStore.New("MyGame", "Settings", persisted);
    var app := new App(store, typeName, codec);
    var plugin := new PersistentResourcePlugin.WithDefault(f);
    plugin.Build(app, true);
    inserted := app.resource;
    afterBuild := store.inner;
  }

  /** A stored record that no longer decodes as `T` is replaced by the default, which the first save overwrites it with. */
  method UndecodableRecordIsReplaced<T(!new)>(typeName: string, codec: Codec<T, Bytes>, record: Bytes, f: () -> T)
    returns (inserted: Option<T>, saved: Result<T, Pkv.ErrorKind>)
    requires codec.decode(record).None?
    requires RoundTrips(codec) && codec.encode(f()).Some?
    ensures inserted == Some(f())
    ensures saved == Ok(f())
  {
    var store := new Pkv.PkvStore.New("MyGame", "Settings", map[typeName := record]);
    var app := new App(store, typeName, codec);
    var plugin := new PersistentResourcePlugin.WithDefault(f);
    plugin.Build(app, false);
    inserted := app.resource;
    app.PostUpdate(false);
    saved := store.Get(typeName, codec, false);
  }

  /**
   * A failed save is dropped: the resource keeps its value, the store keeps the
   * old record, and the next change is saved as usual.
   */
  method FailedSaveIsDropped<T(!new)>(persisted: Pkv.Table, typeName: string, codec: Codec<T, Bytes>,
                                      defaultValue: T, v1: T, v2: T)
    returns (afterFailure: Option<T>, storedAfterFailure: Pkv.Table, saved: Result<T, Pkv.ErrorKind>)
    requires typeName !in persisted
    requires RoundTrips(codec) && codec.encode(defaultValue).Some? && codec.encode(v2).Some?
    ensures afterFailure == Some(v1)
    ensures typeName in storedAfterFailure && codec.decode(storedAfterFailure[typeName]) == Some(defaultValue)
    ensures saved == Ok(v2)
  {
    var store := new Pkv.PkvStore.New("MyGame", "Settings", persisted);
    var app := new App(store, typeName, codec);
    var plugin := new PersistentResourcePlugin.New(defaultValue);
    plugin.Build(app, false);
    app.PostUpdate(false);
    app.Mutate(v1);
    app.PostUpdate(true);
    afterFailure := app.resource;
    storedAfterFailure := store.inner;
    app.Mutate(v2);
    app.PostUpdate(false);
    saved := store.Get(typeName, codec, false);
  }

  /** Without a change there is no save: a record written by someone else stays. */
  method NoChangeNoSave<T(!new)>(persisted: Pkv.Table, typeName: string, codec: Codec<T, Bytes>,
                                 defaultValue: T, other: T)
    returns (ret: Result<T, Pkv.ErrorKind>)
    requires RoundTrips(codec) && codec.encode(defaultValue).Some? && codec.encode(other).Some?
    ensures ret == Ok(other)
  {
    var store := new Pkv.PkvStore.New("MyGame", "Settings", persisted);
    var app := new App(store, typeName, codec);
    var plugin := new PersistentResourcePlugin.New(defaultValue);
    plugin.Build(app, false);
    app.PostUpdate(false);
    var written := store.Set(typeName, other, codec, false);
    app.PostUpdate(false);
    ret := store.Get(typeName, codec, false);
  }
}
