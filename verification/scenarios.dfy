/**
 * Clients of the store and the bridge: what a caller can conclude from the
 * contracts alone about typical sequences of calls.
 */
module Scenarios {
  import opened Values
  import opened Caller
  import opened Executor
  import opened Store
  import opened Bridge

  function Increment(v: Value): Value {
    if v.Num? then Num(v.n + 1.0) else v
  }

  function Decrement(v: Value): Value {
    if v.Num? then Num(v.n - 1.0) else v
  }

  /**
   * Wait for the reply to a call whose function returns `result` on the main
   * thread: the main thread's reply is delivered to the window listeners, and
   * the call succeeds exactly when it was posted, settled with `result`.
   */
  method AwaitReply(api: FigmaAPI, posted: Option<Request>, result: Value) returns (succeeds: bool)
    requires api.Valid()
    requires posted.Some? ==> posted.value.id in api.Pending() && Defined(posted.value.params)
    modifies api
    ensures api.Valid() && api.nextId == old(api.nextId)
    ensures succeeds <==> posted.Some?
    ensures posted.Some? ==> posted.value.id in api.settled && api.settled[posted.value.id] == Resolved(result)
  {
    succeeds := false;
    if posted.Some? {
      var reply := Answer(posted.value, result);
      var outcome := api.Deliver(Envelope(reply));
      succeeds := outcome.Some?;
    }
  }

  /**
   * One of the store's calls, made through `run` from the store's own
   * context, where the host API global is absent (the only context in which
   * a store exists): with `run` as written, or with the corrected check when
   * `corrected` holds. A posted call succeeds when its reply settles it.
   */
  method StoreCall(api: FigmaAPI, source: string, params: Value, result: Value, corrected: bool)
    returns (succeeds: bool)
    requires api.Valid() && Truthy(params)
    modifies api
    ensures api.Valid() && api.nextId == old(api.nextId) + 1
    ensures succeeds <==> corrected
  {
    var posted: Option<Request>;
    if corrected {
      posted := api.RunFromUI(source, params, false);
    } else {
      posted := api.Run(source, params, false);
    }
    succeeds := AwaitReply(api, posted, result);
  }

  /** `initialize`: the load is only sent while the store is not initialized. */
  method InitializeStore(api: FigmaAPI, store: FigmaStore, storage: ClientStorage, corrected: bool)
    requires api.Valid() && store.Valid()
    modifies api, store
    ensures api.Valid() && store.Valid()
    ensures store.isInitialized == (old(store.isInitialized) || corrected)
    ensures store.state ==
      if !old(store.isInitialized) && corrected && Defined(LoadCall(storage.entries, store.storageKey))
      then LoadCall(storage.entries, store.storageKey) else old(store.state)
    ensures store.persistRequests == old(store.persistRequests)
    ensures old(store.isInitialized) ==> api.nextId == old(api.nextId) && store.published == old(store.published)
    ensures !old(store.isInitialized) ==> api.nextId == old(api.nextId) + 1
  {
    if store.isInitialized {
      return;
    }
    var loaded := StoreCall(api, LoadSource, LoadParams(store.storageKey, store.params),
                            LoadCall(storage.entries, store.storageKey), corrected);
    store.Initialize(storage, loaded);
  }

  /** `set`: cache the value, then send the persist. */
  method SetStore(api: FigmaAPI, store: FigmaStore, storage: ClientStorage, value: Value, corrected: bool)
    requires api.Valid() && store.Valid()
    modifies api, store, storage
    ensures api.Valid() && store.Valid() && store.state == value
    ensures store.isInitialized == old(store.isInitialized) && api.nextId == old(api.nextId) + 1
    ensures store.published == old(store.published) + [value] && store.persistRequests == old(store.persistRequests) + 1
    ensures storage.entries ==
      if corrected then SaveCall(old(storage.entries), store.storageKey, value) else old(storage.entries)
  {
    var saved := StoreCall(api, SaveSource, SaveParams(store.storageKey, value, store.params), value, corrected);
    store.Set(value, storage, saved);
  }

  /** `update`: the persist is only sent for a defined result. */
  method UpdateStore(api: FigmaAPI, store: FigmaStore, storage: ClientStorage, updater: Value -> Value,
                     corrected: bool)
    requires api.Valid() && store.Valid()
    modifies api, store, storage
    ensures api.Valid() && store.Valid() && store.state == updater(old(store.state))
    ensures store.isInitialized == old(store.isInitialized)
    ensures !Defined(store.state) ==>
      api.nextId == old(api.nextId) && store.persistRequests == old(store.persistRequests)
      && store.published == old(store.published)
    ensures Defined(store.state) ==>
      api.nextId == old(api.nextId) + 1 && store.persistRequests == old(store.persistRequests) + 1
      && store.published == old(store.published) + [store.state]
    ensures storage.entries ==
      if corrected && Defined(store.state) then SaveCall(old(storage.entries), store.storageKey, store.state)
      else old(storage.entries)
  {
    var next := updater(store.state);
    var saved := false;
    if Defined(next) {
      saved := StoreCall(api, SaveSource, SaveParams(store.storageKey, next, store.params), next, corrected);
    }
    store.Update(updater, storage, saved);
  }

  /** `updateAsync`: the read-modify-write is sent with the updater's source. */
  method UpdateAsyncStore(api: FigmaAPI, store: FigmaStore, storage: ClientStorage, updater: Value -> Value,
                          updaterSource: string, corrected: bool)
    requires api.Valid() && store.Valid()
    modifies api, store, storage
    ensures api.Valid() && store.Valid() && api.nextId == old(api.nextId) + 1
    ensures store.isInitialized == old(store.isInitialized) && store.persistRequests == old(store.persistRequests)
    ensures store.published == if corrected then old(store.published) + [store.state] else old(store.published)
    ensures var call := UpdateCall(old(storage.entries), store.storageKey, Some(updater), old(store.state));
      && storage.entries == (if corrected then call.entries else old(storage.entries))
      && store.state == (if corrected && Truthy(call.returned) then call.returned else old(store.state))
  {
    var call := UpdateCall(storage.entries, store.storageKey, Some(updater), store.state);
    var updated := StoreCall(api, UpdateSource,
                             UpdateParams(store.storageKey, Fn(updaterSource), store.state, store.params),
                             call.returned, corrected);
    store.UpdateAsync(Some(updater), storage, updated);
  }

  /**
   * As written, in either environment: either no store can be created, or
   * every call it makes through `run` from its own context rejects. With 5
   * stored the new store reads 0; `updateAsync(x => x + 1)` changes nothing;
   * `set(7)` reads 7 but is not persisted; a remount reads 0 again and the
   * storage still holds 5.
   */
  method RemountAsWritten(hostApiPresent: bool)
    returns (created: bool, first: Value, afterUpdate: Value, afterSet: Value, afterRemount: Value, durable: Value)
    ensures created <==> !hostApiPresent
    ensures created ==>
      && first == Num(0.0) && afterUpdate == Num(0.0) && afterSet == Num(7.0)
      && afterRemount == Num(0.0) && durable == Num(5.0)
  {
    first, afterUpdate, afterSet, afterRemount, durable := Undefined, Undefined, Undefined, Undefined, Undefined;
    var api := new FigmaAPI();
    var storage := new ClientStorage(map["count" := Num(5.0)]);
    var store := FigmaStore.Construct("count", Num(0.0), None, Undefined, hostApiPresent);
    created := store != null;
    if store == null {
      return;
    }
    InitializeStore(api, store, storage, false);
    first := store.Get();
    UpdateAsyncStore(api, store, storage, Increment, "x => x + 1", false);
    afterUpdate := store.Get();
    SetStore(api, store, storage, Num(7.0), false);
    afterSet := store.Get();
    var remounted := FigmaStore.Construct("count", Num(0.0), None, Undefined, hostApiPresent);
    InitializeStore(api, remounted, storage, false);
    afterRemount := remounted.Get();
    durable := Stored(storage.entries, "count");
  }

  /*
   * The scenarios below make the store's calls through `run` with the
   * corrected check.
   */

  /**
   * `create("count", 0)` with nothing stored reads 0; `set(5)` reads 5 at
   * once; a fresh `create("count", 0)` over the same storage reads 5.
   */
  method RemountScenario() returns (first: Value, afterSet: Value, afterRemount: Value)
    ensures first == Num(0.0) && afterSet == Num(5.0) && afterRemount == Num(5.0)
  {
    var api := new FigmaAPI();
    var storage := new ClientStorage(map[]);
    var store := FigmaStore.Construct("count", Num(0.0), None, Undefined, false);
    InitializeStore(api, store, storage, true);
    first := store.Get();
    SetStore(api, store, storage, Num(5.0), true);
    afterSet := store.Get();
    var remounted := FigmaStore.Construct("count", Num(0.0), None, Undefined, false);
    InitializeStore(api, remounted, storage, true);
    afterRemount := remounted.Get();
  }

  /** `set(0)` after `set(5)` is not persisted: a remount reads 5 again. */
  method FalsySetScenario() returns (afterSet: Value, afterRemount: Value)
    ensures afterSet == Num(0.0) && afterRemount == Num(5.0)
  {
    var api := new FigmaAPI();
    var storage := new ClientStorage(map[]);
    var store := FigmaStore.Construct("count", Num(0.0), None, Undefined, false);
    InitializeStore(api, store, storage, true);
    SetStore(api, store, storage, Num(5.0), true);
    SetStore(api, store, storage, Num(0.0), true);
    afterSet := store.Get();
    var remounted := FigmaStore.Construct("count", Num(0.0), None, Undefined, false);
    InitializeStore(api, remounted, storage, true);
    afterRemount := remounted.Get();
  }

  /** With 5 stored, `updateAsync(x => x + 1)` stores 6 and caches 6. */
  method UpdateAsyncScenario() returns (durable: Value, cached: Value)
    ensures durable == Num(6.0) && cached == Num(6.0)
  {
    var api := new FigmaAPI();
    var storage := new ClientStorage(map["count" := Num(5.0)]);
    var store := FigmaStore.Construct("count", Num(0.0), None, Undefined, false);
    InitializeStore(api, store, storage, true);
    UpdateAsyncStore(api, store, storage, Increment, "x => x + 1", true);
    durable := Stored(storage.entries, "count");
    cached := store.Get();
  }

  /**
   * With 1 stored, `updateAsync(x => x - 1)` stores 0, but the falsy result
   * is not cached: the UI keeps 1 while the storage holds 0.
   */
  method UpdateAsyncFalsyScenario() returns (durable: Value, cached: Value)
    ensures durable == Num(0.0) && cached == Num(1.0)
  {
    var api := new FigmaAPI();
    var storage := new ClientStorage(map["count" := Num(1.0)]);
    var store := FigmaStore.Construct("count", Num(0.0), None, Undefined, false);
    InitializeStore(api, store, storage, true);
    UpdateAsyncStore(api, store, storage, Decrement, "x => x - 1", true);
    durable := Stored(storage.entries, "count");
    cached := store.Get();
  }

  /**
   * `initialize` runs once: after another store over the same key has
   * persisted 5, initializing the first store again sends no call and keeps
   * the value it loaded.
   */
  method ReinitializeScenario() returns (loaded: Value, afterReinitialize: Value, callsSent: nat)
    ensures loaded == Num(0.0) && afterReinitialize == Num(0.0) && callsSent == 0
  {
    var api := new FigmaAPI();
    var storage := new ClientStorage(map[]);
    var store := FigmaStore.Construct("count", Num(0.0), None, Undefined, false);
    InitializeStore(api, store, storage, true);
    loaded := store.Get();
    var other := FigmaStore.Construct("count", Num(0.0), None, Undefined, false);
    SetStore(api, other, storage, Num(5.0), true);
    var before := api.nextId;
    InitializeStore(api, store, storage, true);
    afterReinitialize := store.Get();
    callsSent := api.nextId - before;
  }

  /**
   * `update(x => x)` leaves the cached value as it was (and persists it);
   * `update(() => undefined)` caches undefined and leaves the storage alone.
   */
  method UpdateScenario() returns (afterIdentity: Value, afterUndefined: Value, durable: Value)
    ensures afterIdentity == Num(5.0) && afterUndefined == Undefined && durable == Num(5.0)
  {
    var api := new FigmaAPI();
    var storage := new ClientStorage(map[]);
    var store := FigmaStore.Construct("count", Num(5.0), None, Undefined, false);
    InitializeStore(api, store, storage, true);
    UpdateStore(api, store, storage, v => v, true);
    afterIdentity := store.Get();
    UpdateStore(api, store, storage, v => Undefined, true);
    afterUndefined := store.Get();
    durable := Stored(storage.entries, "count");
  }

  /**
   * As written, whatever the environment, a store and a call made from the
   * same context never both get through: the store demands that the host
   * API global is absent and `figmaScopedRun` demands that it is present.
   */
  method SameContextScenario(hostApiPresent: bool) returns (storeConstructed: bool, callPosted: bool)
    ensures !(storeConstructed && callPosted)
    ensures storeConstructed != callPosted
  {
    var store := FigmaStore.Construct("count", Num(0.0), None, Undefined, hostApiPresent);
    storeConstructed := store != null;
    var api := new FigmaAPI();
    var posted := api.Run("async (figma) => 1", Undefined, hostApiPresent);
    callPosted := posted.Some?;
  }

  /** With the corrected check, a call made where a store can exist is posted, and only there. */
  method SameContextFromUI(hostApiPresent: bool) returns (storeConstructed: bool, callPosted: bool)
    ensures storeConstructed == callPosted
    ensures storeConstructed <==> !hostApiPresent
  {
    var store := FigmaStore.Construct("count", Num(0.0), None, Undefined, hostApiPresent);
    storeConstructed := store != null;
    var api := new FigmaAPI();
    var posted := api.RunFromUI("async (figma) => 1", Undefined, hostApiPresent);
    callPosted := posted.Some?;
  }

  /**
   * A store with a resolver asks for its node target in the context it was
   * created in: the resolver is never reached, the call throws.
   */
  method NodeTargetScenario(hostApiPresent: bool) returns (created: bool, target: Option<Value>)
    ensures created <==> !hostApiPresent
    ensures created ==> target == None
  {
    target := None;
    var resolver: Value -> Value := _ => Arr([Str("node")]);
    var store := FigmaStore.Construct("selection", Null, Some(resolver), Undefined, hostApiPresent);
    created := store != null;
    if store != null {
      target := store.GetNodeTarget(hostApiPresent);
    }
  }

  /**
   * Two calls A then B whose replies arrive B then A: each settles with its
   * own result, and a duplicate reply to A changes nothing.
   */
  method CorrelationScenario() returns (first: Option<(nat, Settlement)>, second: Option<(nat, Settlement)>,
                                        duplicate: Option<(nat, Settlement)>)
    ensures first == Some((1, Resolved(Str("B"))))
    ensures second == Some((0, Resolved(Str("A"))))
    ensures duplicate == None
  {
    var api := new FigmaAPI();
    var params := Obj(map["key" := Str("count")]);
    var postedA := api.RunFromUI("(figma) => 'A'", params, false);
    var postedB := api.RunFromUI("(figma) => 'B'", params, false);
    var requestA, requestB := postedA.value, postedB.value;
    assert requestA.id == 0 && requestB.id == 1;
    assert api.listening == {0, 1} && api.settled == map[];
    var replyA := Answer(requestA, Str("A"));
    var replyB := Answer(requestB, Str("B"));
    first := api.Deliver(Envelope(replyB));
    assert api.listening == {0} && 1 in api.settled;
    second := api.Deliver(Envelope(replyA));
    assert api.listening == {};
    duplicate := api.Deliver(Envelope(replyA));
  }

  /**
   * The main thread's reply to a request with parameters whose function
   * returns `result`: it settles the request's own id, with that result.
   */
  method Answer(req: Request, result: Value) returns (reply: Value)
    requires Defined(req.params)
    ensures Addressee(Envelope(reply)) == Some(req.id)
    ensures Settle(Envelope(reply), req.id) == Some(Resolved(result))
  {
    var fn: Value -> Outcome := _ => Returned(result);
    ReplyCorrelation(req, fn, Null, req.id);
    reply := Handle(Message(req), Some(fn), Null).value;
  }
}
