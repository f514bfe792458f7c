/**
 * `FigmaStore` in src/figmaStore.ts: a value cached in the plugin UI and
 * mirrored under a storage key in the main thread's client storage. Each
 * remote call the store makes is modelled as a synchronous step on the
 * storage map; whether that call was posted and settled with a result
 * (`rpcSucceeds`) or rejected and was caught is a parameter. Made through
 * `run` as written from the store's own context, every call rejects; the
 * scenarios obtain the flag from `FigmaAPI.Run` or `FigmaAPI.RunFromUI`.
 */
module Store {
  import opened Values
  import opened Caller
  import opened Executor
  import opened Bridge

  /** `figma.clientStorage`: the durable key/value map of the plugin. */
  class ClientStorage {
    var entries: map<string, Value>

    constructor (initial: map<string, Value>)
      ensures entries == initial
    {
      entries := initial;
    }
  }

  /** `figma.clientStorage.getAsync(key)`: undefined for a key that holds nothing. */
  function Stored(entries: map<string, Value>, key: string): Value {
    if key in entries then entries[key] else Undefined
  }

  /** The stored value `updateAsync` starts from: the durable one, else the fallback. */
  function Base(entries: map<string, Value>, key: string, fallback: Value): (r: Value)
    ensures Defined(Stored(entries, key)) ==> r == Stored(entries, key)
    ensures !Defined(Stored(entries, key)) ==> r == fallback
  {
    var current := Stored(entries, key);
    if Defined(current) then current else fallback
  }

  /** The function `initialize` runs on the main thread: the stored value, unless the key is empty. */
  function LoadCall(entries: map<string, Value>, key: string): (r: Value)
    ensures Defined(r) ==> key != "" && key in entries && entries[key] == r
    ensures key != "" && key in entries ==> r == entries[key]
  {
    if key == "" then Undefined else Stored(entries, key)
  }

  /**
   * The function `_saveStateToStorage` runs on the main thread: the storage
   * afterwards. A falsy value or an empty key is not written.
   */
  function SaveCall(entries: map<string, Value>, key: string, value: Value): (r: map<string, Value>)
    ensures key != "" && Truthy(value) ==> r == entries[key := value]
    ensures key == "" || !Truthy(value) ==> r == entries
  {
    if key == "" || !Truthy(value) then entries else entries[key := value]
  }

  /** What the function `updateAsync` runs on the main thread returns, and the storage afterwards. */
  datatype UpdateResult = UpdateResult(returned: Value, entries: map<string, Value>)

  /**
   * The read-modify-write `updateAsync` runs on the main thread: read the
   * key (falling back to `fallback`), apply the updater, and write and
   * return its result when that result is defined. Nothing happens without
   * a key or an updater.
   */
  function UpdateCall(entries: map<string, Value>, key: string, updater: Option<Value -> Value>, fallback: Value)
    : (r: UpdateResult)
    ensures key == "" || updater.None? ==> r == UpdateResult(Undefined, entries)
    ensures key != "" && updater.Some? ==> r.returned == updater.value(Base(entries, key, fallback))
    ensures Defined(r.returned) ==> r.entries == entries[key := r.returned]
    ensures !Defined(r.returned) ==> r.entries == entries
  {
    if key == "" || updater.None? then UpdateResult(Undefined, entries)
    else
      var updated := updater.value(Base(entries, key, fallback));
      if Defined(updated) then UpdateResult(updated, entries[key := updated])
      else UpdateResult(Undefined, entries)
  }

  /** The source texts of the three functions the store ships to the main thread. */
  const LoadSource := "async (figma, inputParams) => { /* getAsync(key) unless !key */ }"
  const SaveSource := "async (figma, inputParams) => { /* setAsync(key, value) unless !key || !value */ }"
  const UpdateSource := "async (figma, inputParams) => { /* read, update, write a defined result */ }"

  /** The parameters `initialize` passes to `run`: `{key, params}`. */
  function LoadParams(key: string, params: Value): (r: Value)
    ensures Truthy(r) && Field(r, "key") == Str(key) && Field(r, "params") == params
  {
    Obj(map["key" := Str(key), "params" := params])
  }

  /** The parameters `_saveStateToStorage` passes to `run`: `{key, value, params}`. */
  function SaveParams(key: string, value: Value, params: Value): (r: Value)
    ensures Truthy(r) && Field(r, "key") == Str(key) && Field(r, "value") == value
    ensures Field(r, "params") == params
  {
    Obj(map["key" := Str(key), "value" := value, "params" := params])
  }

  /**
   * The parameters `updateAsync` passes to `run`: the key, the updater (a
   * function, sent as its source), the cached value and the resolver's
   * parameters.
   */
  function UpdateParams(key: string, updater: Value, initialValue: Value, params: Value): (r: Value)
    ensures Truthy(r) && Field(r, "key") == Str(key) && Field(r, "asyncUpdaterFunction") == updater
    ensures Field(r, "initialValue") == initialValue && Field(r, "params") == params
  {
    Obj(map["key" := Str(key), "asyncUpdaterFunction" := updater, "initialValue" := initialValue,
            "params" := params])
  }

  /**
   * The persist's parameters reach the main thread unchanged when the key and
   * the value survive the replacer and the reviver: the function there sees
   * the key and the value the store sent, which is what `SaveCall` takes.
   */
  lemma SaveParamsArrive(key: string, value: Value, params: Value)
    requires PlainText(key) && Transferable(value) && Transferable(params)
    ensures var received := ReviveTree(WireParams(SaveParams(key, value, params)));
      Field(received, "key") == Str(key) && Field(received, "value") == value
  {
    var sent := SaveParams(key, value, params);
    assert Transferable(sent);
    ParamsRoundTrip(sent);
  }

  /**
   * A cached string that looks like function source does not reach the
   * persist as that string: the reviver hands the main thread a function.
   */
  lemma ParenthesisedValueArrivesAsFunction(key: string, params: Value)
    ensures var received := ReviveTree(WireParams(SaveParams(key, Str("(555) 010-0199"), params)));
      Field(received, "value") == Fn("(555) 010-0199")
  {
    ParenthesisedTextReconstructed();
    var sent := Replace(SaveParams(key, Str("(555) 010-0199"), params));
    assert sent.fields["value"] == Str("(555) 010-0199");
  }

  /** No key of the storage holds `undefined`. */
  ghost predicate NoUndefined(entries: map<string, Value>) {
    forall k :: k in entries ==> Defined(entries[k])
  }

  /** Neither remote write of the store ever puts `undefined` into the storage. */
  lemma WritesAreDefined(entries: map<string, Value>, key: string, value: Value,
                         updater: Option<Value -> Value>, fallback: Value)
    requires NoUndefined(entries)
    ensures NoUndefined(SaveCall(entries, key, value))
    ensures NoUndefined(UpdateCall(entries, key, updater, fallback).entries)
  {
  }

  /** What a persisted truthy value reads back as on the next `initialize`. */
  lemma SaveThenLoad(entries: map<string, Value>, key: string, value: Value)
    requires key != "" && Truthy(value)
    ensures LoadCall(SaveCall(entries, key, value), key) == value
  {
  }

  /** A falsy value is not persisted: the next `initialize` reads what was there before. */
  lemma FalsySaveReadsStale(entries: map<string, Value>, key: string, value: Value)
    requires !Truthy(value)
    ensures LoadCall(SaveCall(entries, key, value), key) == LoadCall(entries, key)
  {
  }

  /** A defined result of `updateAsync`'s remote step is what the next `initialize` reads. */
  lemma UpdateThenLoad(entries: map<string, Value>, key: string, updater: Option<Value -> Value>, fallback: Value)
    requires Defined(UpdateCall(entries, key, updater, fallback).returned)
    ensures key != ""
    ensures LoadCall(UpdateCall(entries, key, updater, fallback).entries, key)
            == UpdateCall(entries, key, updater, fallback).returned
  {
  }

  /**
   * What `getNodeTarget` returns for a resolver result: an empty array
   * becomes undefined, anything else is returned as it is.
   */
  function Target(resolved: Value): (r: Value)
    ensures resolved.Arr? ==> (Defined(r) <==> |resolved.elems| > 0)
    ensures Defined(r) ==> r == resolved
    ensures !resolved.Arr? ==> r == resolved
  {
    if resolved.Arr? && |resolved.elems| == 0 then Undefined else resolved
  }

  class FigmaStore {
    /** The cached value `get` returns. */
    var state: Value
    var isInitialized: bool
    const storageKey: string
    /** The optional resolver of the host objects the value belongs to. */
    const nodeTarget: Option<Value -> Value>
    /** The resolver's parameters; `Undefined` when none were given. */
    const params: Value
    /** Every value handed to the Svelte writable, the first at construction. */
    ghost var published: seq<Value>
    /** How many times a persist of the state has been started. */
    ghost var persistRequests: nat

    /**
     * Subscribers have last been given the cached value, unless an updater
     * of `update` returned undefined, which is cached without publishing.
     */
    ghost predicate Valid()
      reads this
    {
      |published| > 0 && (published[|published| - 1] == state || !Defined(state))
    }

    /** The constructor once the host API check has passed. */
    constructor (storageKey: string, initialValue: Value, nodeTarget: Option<Value -> Value>, params: Value)
      ensures Valid()
      ensures state == initialValue && !isInitialized
      ensures this.storageKey == storageKey && this.nodeTarget == nodeTarget && this.params == params
      ensures published == [initialValue] && persistRequests == 0
    {
      state := initialValue;
      published := [initialValue];
      isInitialized := false;
      this.storageKey := storageKey;
      this.nodeTarget := nodeTarget;
      this.params := params;
      persistRequests := 0;
    }

    /** `new FigmaStore(...)`: throws (here: null) when the host API global is present. */
    static method Construct(storageKey: string, initialValue: Value, nodeTarget: Option<Value -> Value>,
                            params: Value, hostApiPresent: bool)
      returns (store: FigmaStore?)
      ensures store == null <==> hostApiPresent
      ensures store != null ==>
        && fresh(store) && store.Valid()
        && store.state == initialValue && !store.isInitialized
        && store.storageKey == storageKey && store.nodeTarget == nodeTarget && store.params == params
        && store.published == [initialValue] && store.persistRequests == 0
    {
      if hostApiPresent {
        store := null;
      } else {
        store := new FigmaStore(storageKey, initialValue, nodeTarget, params);
      }
    }

    /** `FigmaStore.create`: construct, then initialize from the storage. */
    static method Create(storageKey: string, initialValue: Value, nodeTarget: Option<Value -> Value>,
                         params: Value, hostApiPresent: bool, storage: ClientStorage, rpcSucceeds: bool)
      returns (store: FigmaStore?)
      ensures store == null <==> hostApiPresent
      ensures store != null ==>
        && fresh(store) && store.Valid()
        && store.storageKey == storageKey && store.nodeTarget == nodeTarget && store.params == params
        && store.isInitialized == rpcSucceeds
        && store.state == (if rpcSucceeds && Defined(LoadCall(storage.entries, storageKey))
                           then LoadCall(storage.entries, storageKey) else initialValue)
        && store.persistRequests == 0
    {
      store := Construct(storageKey, initialValue, nodeTarget, params, hostApiPresent);
      if store != null {
        store.Initialize(storage, rpcSucceeds);
      }
    }

    /**
     * Load the stored value once. A defined stored value replaces the cached
     * one; a failed load changes nothing, so a later call tries again.
     */
    method Initialize(storage: ClientStorage, rpcSucceeds: bool)
      requires Valid()
      modifies this
      ensures Valid() && persistRequests == old(persistRequests)
      ensures old(isInitialized) ==> isInitialized && state == old(state) && published == old(published)
      ensures !old(isInitialized) && !rpcSucceeds ==>
        !isInitialized && state == old(state) && published == old(published)
      ensures !old(isInitialized) && rpcSucceeds ==>
        && isInitialized
        && state == (if Defined(LoadCall(storage.entries, storageKey))
                     then LoadCall(storage.entries, storageKey) else old(state))
        && published == old(published) + [state]
    {
      if isInitialized {
        return;
      }
      if rpcSucceeds {
        var storedState := LoadCall(storage.entries, storageKey);
        if Defined(storedState) {
          state := storedState;
        }
        isInitialized := true;
        published := published + [state];
      }
    }

    /** The cached value; no remote call. */
    method Get() returns (value: Value)
      ensures value == state
    {
      value := state;
    }

    /** `_saveStateToStorage`: persist the current state unless it is falsy or the key is empty. */
    method SaveToStorage(storage: ClientStorage, rpcSucceeds: bool)
      modifies this`persistRequests, storage
      ensures persistRequests == old(persistRequests) + 1
      ensures rpcSucceeds ==> storage.entries == SaveCall(old(storage.entries), storageKey, state)
      ensures !rpcSucceeds ==> storage.entries == old(storage.entries)
    {
      persistRequests := persistRequests + 1;
      if rpcSucceeds {
        storage.entries := SaveCall(storage.entries, storageKey, state);
      }
    }

    /** Cache and publish the value at once, then persist it. */
    method Set(newState: Value, storage: ClientStorage, rpcSucceeds: bool)
      requires Valid()
      modifies this, storage
      ensures Valid() && isInitialized == old(isInitialized)
      ensures state == newState && published == old(published) + [newState]
      ensures persistRequests == old(persistRequests) + 1
      ensures rpcSucceeds && storageKey != "" && Truthy(newState) ==>
        storage.entries == old(storage.entries)[storageKey := newState]
      ensures !rpcSucceeds || storageKey == "" || !Truthy(newState) ==>
        storage.entries == old(storage.entries)
    {
      state := newState;
      published := published + [state];
      SaveToStorage(storage, rpcSucceeds);
    }

    /**
     * Cache the updater's result, even `undefined`; only a defined result is
     * published and persisted.
     */
    method Update(updater: Value -> Value, storage: ClientStorage, rpcSucceeds: bool)
      requires Valid()
      modifies this, storage
      ensures Valid() && isInitialized == old(isInitialized)
      ensures state == updater(old(state))
      ensures !Defined(state) ==>
        published == old(published) && persistRequests == old(persistRequests) &&
        storage.entries == old(storage.entries)
      ensures Defined(state) ==>
        published == old(published) + [state] && persistRequests == old(persistRequests) + 1 &&
        storage.entries == (if rpcSucceeds then SaveCall(old(storage.entries), storageKey, state)
                            else old(storage.entries))
    {
      state := updater(state);
      if Defined(state) {
        published := published + [state];
        SaveToStorage(storage, rpcSucceeds);
      }
    }

    /**
     * Run the read-modify-write on the main thread, falling back to the
     * cached value, then cache its result when truthy and publish.
     */
    method UpdateAsync(updater: Option<Value -> Value>, storage: ClientStorage, rpcSucceeds: bool)
      requires Valid()
      modifies this, storage
      ensures Valid() && isInitialized == old(isInitialized) && persistRequests == old(persistRequests)
      ensures !rpcSucceeds ==>
        state == old(state) && published == old(published) && storage.entries == old(storage.entries)
      ensures rpcSucceeds ==>
        var call := UpdateCall(old(storage.entries), storageKey, updater, old(state));
        && storage.entries == call.entries
        && state == (if Truthy(call.returned) then call.returned else old(state))
        && published == old(published) + [state]
    {
      if rpcSucceeds {
        var call := UpdateCall(storage.entries, storageKey, updater, state);
        storage.entries := call.entries;
        var storedState := call.returned;
        state := if Truthy(storedState) then storedState else state;
        published := published + [state];
      }
    }

    /**
     * Resolve the host objects of the value: nothing without a resolver;
     * otherwise the resolver is called with the host API global, which throws
     * (`None`) where that global is absent, and else gets the parameters, or
     * `{}` when they are falsy. An empty array becomes nothing; any other
     * result is returned as it is.
     */
    method GetNodeTarget(hostApiPresent: bool) returns (target: Option<Value>)
      ensures nodeTarget.None? ==> target == Some(Undefined)
      ensures nodeTarget.Some? && !hostApiPresent ==> target == None
      ensures nodeTarget.Some? && hostApiPresent ==>
        var resolved := nodeTarget.value(if Truthy(params) then params else Obj(map[]));
        && (resolved.Arr? && |resolved.elems| == 0 ==> target == Some(Undefined))
        && (!(resolved.Arr? && |resolved.elems| == 0) ==> target == Some(resolved))
    {
      if nodeTarget.None? {
        return Some(Undefined);
      }
      if !hostApiPresent {
        return None;
      }
      var resolved := nodeTarget.value(if Truthy(params) then params else Obj(map[]));
      target := Some(Target(resolved));
    }
  }
}
