/**
 * The `useResource` hook: one resource bound to a real key of the shared
 * cache, with its own `loading` and `error` fields. Each asynchronous fetch
 * is split into two steps: `FetchData` starts it (the call to the service),
 * `Settle` runs its continuation once the service's promise resolves or
 * rejects. Several fetches may be in flight; they settle in any order.
 */
module ResourceController {
  import opened JsValue
  import opened ResourceCache

  /** How a service call's promise settles. */
  datatype Settlement = Resolved(data: Value) | Rejected(reason: Value)

  /** The mount-time rule: fetch when the cached value is falsy or the key is persistent. */
  function ShouldFetchOnMount(st: StoreState, realKey: string): (r: bool)
    ensures r <==> !Truthy(GetCache(st.cache, realKey)) || realKey in PersistenceDataKeys
    ensures !r ==> realKey in st.cache
  {
    !Truthy(GetCache(st.cache, realKey)) || Truthy(IsPersistence(realKey))
  }

  /** What a settled fetch does to the store: a resolved one saves its data, a rejected one nothing. */
  function SettledStore(st: StoreState, realKey: string, isPersistence: Value, outcome: Settlement): (r: StoreState)
    ensures outcome.Rejected? ==> r == st
    ensures outcome.Resolved? && realKey != "" ==>
              && Entry(r.cache, realKey) == Some(outcome.data)
              && r.cache - {realKey} == st.cache - {realKey}
              && (|r.writes| > |st.writes| <==> Truthy(isPersistence))
              && (|r.writes| > |st.writes| ==> r.writes == st.writes + [Write(Str(realKey), outcome.data)])
              && (!Truthy(isPersistence) ==> r.writes == st.writes)
  {
    match outcome
    case Resolved(data) => ApplySave(st, Some(Payload(Str(realKey), data, isPersistence)))
    case Rejected(_) => st
  }

  class Resource {
    const store: CacheStore
    const realKey: string
    /** The params given at creation; `ReLoading` falls back to them. */
    const params: Value
    const isPersistence: Value
    /** `options.save`: an unmount handler was registered. */
    const evictOnUnmount: bool
    var loading: bool
    var error: Value
    /** Fetches started and not yet settled. */
    var pending: nat
    /** The params of every service call, in order. */
    var calls: seq<Value>

    ghost predicate Valid()
      reads this
    {
      && realKey != ""
      && isPersistence == IsPersistence(realKey)
      && (loading ==> pending > 0)
    }

    /** The live view `data`: whatever the shared cache holds under this resource's key now. */
    function Data(): (d: Value)
      reads store
      // the entry the shared cache holds under the real key at the time of reading
      ensures Entry(store.cache, realKey) == Some(d) || (Entry(store.cache, realKey) == None && d == Undefined)
    {
      GetCache(store.cache, realKey)
    }

    /** `useResource(key, service, params, options)`, up to the returned handles. */
    constructor (store: CacheStore, key: Value, serviceName: string, params: Value, save: Value)
      modifies store
      ensures Valid()
      ensures this.store == store && realKey == GetRealKey(key, serviceName) && this.params == params
      ensures evictOnUnmount == Truthy(save) && error == Null
      ensures var fetched := ShouldFetchOnMount(old(store.State()), realKey);
              && loading == fetched
              && pending == (if fetched then 1 else 0)
              && calls == (if fetched then [params] else [])
      ensures store.State() == old(store.State())
    {
      this.store := store;
      realKey := GetRealKey(key, serviceName);
      this.params := params;
      isPersistence := IsPersistence(GetRealKey(key, serviceName));
      evictOnUnmount := Truthy(save);
      loading := false;
      error := Null;
      pending := 0;
      calls := [];
      new;
      if !Truthy(Data()) || Truthy(isPersistence) {
        FetchData(params);
      }
    }

    /** `fetchData(realParams)` up to the point where it awaits the service's promise. */
    method FetchData(realParams: Value)
      requires Valid()
      modifies this
      ensures Valid()
      ensures loading && pending == old(pending) + 1
      ensures calls == old(calls) + [realParams] && error == old(error)
    {
      loading := true;
      pending := pending + 1;
      calls := calls + [realParams];
    }

    /** `reLoading(reloadParams = params)`: an omitted or `undefined` argument means the original params. */
    method ReLoading(reloadParams: Value)
      requires Valid()
      modifies this
      ensures Valid()
      ensures loading && pending == old(pending) + 1 && error == old(error)
      ensures calls == old(calls) + [if reloadParams == Undefined then params else reloadParams]
    {
      var realParams := if reloadParams == Undefined then params else reloadParams;
      FetchData(realParams);
    }

    /**
     * The continuation of one in-flight fetch: on success save the data under
     * the real key (mirrored when persistent), on failure record the error;
     * either way clear `loading`. Success does not reset an earlier error.
     */
    method Settle(outcome: Settlement)
      requires Valid() && pending > 0
      modifies this, store
      ensures Valid()
      ensures store.State() == SettledStore(old(store.State()), realKey, isPersistence, outcome)
      ensures !loading && pending == old(pending) - 1 && calls == old(calls)
      ensures error == if outcome.Rejected? then outcome.reason else old(error)
    {
      match outcome {
        case Resolved(data) =>
          store.Save(Some(Payload(Str(realKey), data, isPersistence)));
        case Rejected(reason) =>
          error := reason;
      }
      loading := false;
      pending := pending - 1;
    }

    /** The unmount handler, when registered, calls `deleteCache`, which evicts nothing. */
    method Unmount() returns (evicted: bool)
      ensures !evicted
    {
      evicted := false;
      if evictOnUnmount {
        evicted := store.DeleteCache(realKey);
      }
    }
  }

  // -----------------------------------------------------------------------
  // Scenarios: what a caller observes after a fetch settles
  // -----------------------------------------------------------------------

  /** A first mount on an empty cache fetches with the given params; success fills the view. */
  method FetchSucceeds(key: Value, serviceName: string, params: Value, data: Value)
    returns (loading: bool, err: Value, view: Value, fetchedWith: seq<Value>)
    ensures !loading && err == Null && view == data && fetchedWith == [params]
  {
    var store := new CacheStore();
    var r := new Resource(store, key, serviceName, params, Bool(false));
    r.Settle(Resolved(data));
    loading, err, view, fetchedWith := r.loading, r.error, r.Data(), r.calls;
  }

  /** A rejected reload records the reason and leaves the previously cached value visible. */
  method ReloadFails(key: Value, serviceName: string, params: Value, before: Value, reason: Value)
    returns (loading: bool, err: Value, view: Value, lastFetch: Value)
    ensures !loading && err == reason && view == before && lastFetch == params
  {
    var store := new CacheStore();
    store.Save(Some(Payload(Str(GetRealKey(key, serviceName)), before, Undefined)));
    var r := new Resource(store, key, serviceName, params, Bool(false));
    r.ReLoading(Undefined);
    if r.pending == 2 {
      r.Settle(Rejected(reason));
    }
    r.Settle(Rejected(reason));
    loading, err, view, lastFetch := r.loading, r.error, r.Data(), r.calls[|r.calls| - 1];
  }

  /** After a failure, a later success fills the view but the old error stays. */
  method ErrorOutlivesSuccess(key: Value, serviceName: string, params: Value, reason: Value, data: Value)
    returns (err: Value, view: Value)
    ensures err == reason && view == data
  {
    var store := new CacheStore();
    var r := new Resource(store, key, serviceName, params, Bool(false));
    r.Settle(Rejected(reason));
    r.ReLoading(Undefined);
    r.Settle(Resolved(data));
    err, view := r.error, r.Data();
  }

  /**
   * Overlapping fetches: the first to settle clears `loading` while the other
   * is still in flight, and the last to settle decides the cached value.
   */
  method OverlappingFetches(key: Value, serviceName: string, params: Value, first: Value, last: Value)
    returns (loadingBetween: bool, stillPending: nat, view: Value)
    ensures !loadingBetween && stillPending == 1 && view == last
  {
    var store := new CacheStore();
    var r := new Resource(store, key, serviceName, params, Bool(false));
    r.ReLoading(Undefined);
    r.Settle(Resolved(first));
    loadingBetween, stillPending := r.loading, r.pending;
    r.Settle(Resolved(last));
    view := r.Data();
  }

  /** Resources sharing a key see a value saved by any of them, while each keeps its own `loading`. */
  method SharedKeyPropagation(key: Value, serviceName: string, p1: Value, p2: Value, p3: Value, data: Value)
    returns (view1: Value, view2: Value, loading1: bool, loading3: bool)
    ensures view1 == data && view2 == data && loading1 && !loading3
  {
    var store := new CacheStore();
    var r1 := new Resource(store, key, serviceName, p1, Bool(false));
    var r2 := new Resource(store, key, serviceName, p2, Bool(false));
    var r3 := new Resource(store, key, serviceName, p3, Bool(false));
    r3.Settle(Resolved(data));
    view1, view2, loading1, loading3 := r1.Data(), r2.Data(), r1.loading, r3.loading;
  }

  /**
   * The allow-listed resource refetches on mount even when its value is
   * cached, and its successful fetch is mirrored to the durable backend.
   */
  method PersistentResourceMirrors(cached: Value, params: Value, data: Value)
    returns (fetchedOnMount: bool, backendWrites: seq<Write>)
    ensures fetchedOnMount
    ensures backendWrites == [Write(Str("temp-fackApi"), data)]
  {
    var store := new CacheStore();
    store.Save(Some(Payload(Str("temp-fackApi"), cached, Undefined)));
    var r := new Resource(store, Str("temp"), "fackApi", params, Bool(false));
    assert r.realKey == "temp-fackApi" && r.realKey in PersistenceDataKeys;
    fetchedOnMount := r.pending == 1;
    r.Settle(Resolved(data));
    backendWrites := store.writes;
  }

  /** A resource whose key holds a truthy value and is not allow-listed does not fetch on mount. */
  method CachedResourceSkipsFetch(key: Value, serviceName: string, params: Value, cached: Value)
    returns (loading: bool, fetches: nat, view: Value)
    requires Truthy(cached) && GetRealKey(key, serviceName) !in PersistenceDataKeys
    ensures !loading && fetches == 0 && view == cached
  {
    var store := new CacheStore();
    store.Save(Some(Payload(Str(GetRealKey(key, serviceName)), cached, Undefined)));
    var r := new Resource(store, key, serviceName, params, Bool(false));
    loading, fetches, view := r.loading, |r.calls|, r.Data();
  }
}
