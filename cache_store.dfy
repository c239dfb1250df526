/**
 * The resource cache of `useResource.js`: a flat map from string keys to
 * values held in one store module, the SAVE and DELETE mutations that update
 * it, the allow-list of keys mirrored to a durable backend, and the start-up
 * action that hydrates the allow-listed keys from that backend.
 */
module ResourceCache {
  import opened JsValue

  datatype Option<T> = None | Some(value: T)

  /** The name of the DELETE mutation, and of the one action the store module registers. */
  const ResourceCacheDelete: string := "RESOURCE_CACHE_DELETE"
  const LoadAllPersistenceDataAction: string := "LOAD_ALL_PERSISTENCE_DATA"

  /** The module's registered actions; DELETE is a mutation and not among them. */
  const Actions: set<string> := {LoadAllPersistenceDataAction}

  // ---------------------------------------------------------------------
  // Key derivation
  // ---------------------------------------------------------------------

  /** `key + '-' + serviceName`: the caller's key, coerced to a string, a dash, the service's name. */
  function GetRealKey(key: Value, serviceName: string): (r: string)
    ensures |r| == |ToStr(key)| + 1 + |serviceName|
    ensures r[..|ToStr(key)|] == ToStr(key)
    ensures r[|ToStr(key)|] == '-'
    ensures r[|ToStr(key)| + 1..] == serviceName
    ensures r != "" && Truthy(Str(r))
  {
    ToStr(key) + "-" + serviceName
  }

  /**
   * When service names contain no dash, the real key determines both the
   * caller's key (as a string) and the service name.
   */
  lemma RealKeyInjective(k1: Value, s1: string, k2: Value, s2: string)
    requires '-' !in s1 && '-' !in s2
    requires GetRealKey(k1, s1) == GetRealKey(k2, s2)
    ensures ToStr(k1) == ToStr(k2) && s1 == s2
  {
  }

  /** Without that restriction two different resources can share a real key. */
  lemma RealKeyCollision()
    ensures GetRealKey(Str("a-b"), "c") == GetRealKey(Str("a"), "b-c")
  {
  }

  // ---------------------------------------------------------------------
  // Persistence allow-list
  // ---------------------------------------------------------------------

  /** The real keys mirrored to the durable backend. */
  const PersistenceDataKeys: seq<string> := [GetRealKey(Str("temp"), "fackApi")]

  /** `keys.find(key => key === target)`: the matching element, or `undefined`. */
  function Find(keys: seq<string>, target: string): (r: Value)
    ensures target in keys ==> r == Str(target)
    ensures target !in keys ==> r == Undefined
  {
    if keys == [] then Undefined
    else if keys[0] == target then Str(keys[0])
    else Find(keys[1..], target)
  }

  /** The `isPersistence` value of a resource: truthy exactly for allow-listed keys. */
  function IsPersistence(realKey: string): (r: Value)
    ensures Truthy(r) <==> realKey in PersistenceDataKeys
    ensures r == Undefined || r == Str(realKey)
  {
    Find(PersistenceDataKeys, realKey)
  }

  // ---------------------------------------------------------------------
  // Store state and its mutations, as functions
  // ---------------------------------------------------------------------

  /** One `setItem(key, data)` call on the durable backend. */
  datatype Write = Write(key: Value, data: Value)

  /** The payload object of a SAVE or DELETE commit; `None` for a missing payload. */
  datatype Payload = Payload(realKey: Value, data: Value, isPersistence: Value)

  /** The cache map of the store module, and the writes sent to the durable backend so far. */
  datatype StoreState = StoreState(cache: map<string, Value>, writes: seq<Write>)

  const EmptyStore: StoreState := StoreState(map[], [])

  /** Optional-chained property read: a never-written key reads as `undefined`. */
  function GetCache(cache: map<string, Value>, realKey: string): (r: Value)
    // an entry reads as the value it holds; a missing entry reads as `undefined`, never failing
    ensures Entry(cache, realKey) == Some(r) || (Entry(cache, realKey) == None && r == Undefined)
    ensures r != Undefined ==> realKey in cache
  {
    if realKey in cache then cache[realKey] else Undefined
  }

  /** Whether the entry exists at all, which `GetCache` cannot tell apart from a stored `undefined`. */
  function Entry(cache: map<string, Value>, key: string): Option<Value>
  {
    if key in cache then Some(cache[key]) else None
  }

  /** SAVE takes effect when there is a payload whose `realKey` is truthy. */
  predicate SaveApplies(payload: Option<Payload>)
  {
    payload.Some? && Truthy(payload.value.realKey)
  }

  /** The SAVE mutation. */
  function ApplySave(st: StoreState, payload: Option<Payload>): (r: StoreState)
    // a missing payload or a falsy key changes nothing
    ensures !SaveApplies(payload) ==> r == st
    // the saved key now holds the data; every other entry is as it was
    ensures SaveApplies(payload) ==>
              var key := ToStr(payload.value.realKey);
              && Entry(r.cache, key) == Some(payload.value.data)
              && r.cache.Keys == st.cache.Keys + {key}
              && r.cache - {key} == st.cache - {key}
    // a backend write is emitted exactly for a persistent save, after the earlier ones
    ensures |r.writes| > |st.writes| <==> SaveApplies(payload) && Truthy(payload.value.isPersistence)
    ensures |r.writes| > |st.writes| ==>
              r.writes == st.writes + [Write(payload.value.realKey, payload.value.data)]
    ensures |r.writes| <= |st.writes| ==> r.writes == st.writes
  {
    if !SaveApplies(payload) then st
    else
      var p := payload.value;
      StoreState(st.cache[ToStr(p.realKey) := p.data],
                 if Truthy(p.isPersistence) then st.writes + [Write(p.realKey, p.data)] else st.writes)
  }

  /** Repeating a SAVE leaves the cache as the first one left it; a persistent save is written twice. */
  lemma SaveIdempotent(st: StoreState, payload: Option<Payload>)
    ensures ApplySave(ApplySave(st, payload), payload).cache == ApplySave(st, payload).cache
    ensures SaveApplies(payload) && Truthy(payload.value.isPersistence) ==>
              |ApplySave(ApplySave(st, payload), payload).writes| == |st.writes| + 2
  {
  }

  /** A stored `null` is an entry; a key never written is none, and reads as `undefined`. */
  lemma StoredNullIsNotAbsent(key: string)
    requires key != ""
    ensures Entry(EmptyStore.cache, key) == None && GetCache(EmptyStore.cache, key) == Undefined
    ensures var st := ApplySave(EmptyStore, Some(Payload(Str(key), Null, Undefined)));
            Entry(st.cache, key) == Some(Null) && GetCache(st.cache, key) == Null
  {
  }

  /**
   * The DELETE mutation as written: reading `realKey` of a missing payload
   * throws (`None`); a truthy key returns at once; only a falsy key reaches
   * the assignment, which stores `null` under that key's string form.
   */
  function ApplyDelete(st: StoreState, payload: Option<Payload>): (r: Option<StoreState>)
    ensures r.None? <==> payload.None?
    ensures r.Some? ==> r.value.writes == st.writes
    // no entry is ever removed
    ensures r.Some? ==> st.cache.Keys <= r.value.cache.Keys
    ensures r.Some? && Truthy(payload.value.realKey) ==> r.value == st
    ensures r.Some? && !Truthy(payload.value.realKey) ==>
              var key := ToStr(payload.value.realKey);
              && key in {"undefined", "null", "false", "0", ""}
              && Entry(r.value.cache, key) == Some(Null)
              && r.value.cache - {key} == st.cache - {key}
  {
    match payload
    case None => None
    case Some(p) =>
      if Truthy(p.realKey) then Some(st)
      else
        FalsyValues(p.realKey);
        Some(StoreState(st.cache[ToStr(p.realKey) := Null], st.writes))
  }

  /** DELETE of any real key leaves the store exactly as it was. */
  lemma DeleteOfRealKeyIsNoOp(st: StoreState, key: Value, serviceName: string, data: Value, isPersistence: Value)
    ensures ApplyDelete(st, Some(Payload(Str(GetRealKey(key, serviceName)), data, isPersistence))) == Some(st)
  {
  }

  // ---------------------------------------------------------------------
  // Durable backend and hydration
  // ---------------------------------------------------------------------

  /** `getItem(key)`: the stored value, or `null` for a key never stored. */
  function GetItem(backend: map<string, Value>, key: string): Value
  {
    if key in backend then backend[key] else Null
  }

  /** The backend after it has carried out the given `setItem` calls in order. */
  function Flush(backend: map<string, Value>, writes: seq<Write>): (r: map<string, Value>)
    ensures forall w :: w in writes ==> ToStr(w.key) in r
    ensures forall k :: k in backend ==> k in r
  {
    if writes == [] then backend
    else
      var w := writes[|writes| - 1];
      Flush(backend, writes[..|writes| - 1])[ToStr(w.key) := w.data]
  }

  /** The SAVE payload that hydration commits for one allow-listed key. */
  function HydrationPayload(backend: map<string, Value>, key: string): Payload
  {
    Payload(Str(key), GetItem(backend, key), Undefined)
  }

  /** What hydrating `keys` puts into the cache: every non-empty key, with its backend value. */
  function Loaded(keys: seq<string>, backend: map<string, Value>): map<string, Value>
  {
    map k | k in keys && k != "" :: GetItem(backend, k)
  }

  /** Hydrating one more key adds that key's backend value, unless the key is empty. */
  lemma LoadedSnoc(init: seq<string>, last: string, backend: map<string, Value>)
    ensures Loaded(init + [last], backend) ==
              if last == "" then Loaded(init, backend)
              else Loaded(init, backend)[last := GetItem(backend, last)]
  {
    assert forall k :: k in init + [last] <==> k in init || k == last;
  }

  /** The SAVE that hydration commits for one more key extends the loaded entries by that key. */
  lemma HydrationStep(st: StoreState, prev: StoreState, init: seq<string>, last: string, backend: map<string, Value>)
    requires prev == StoreState(st.cache + Loaded(init, backend), st.writes)
    ensures ApplySave(prev, Some(HydrationPayload(backend, last)))
            == StoreState(st.cache + Loaded(init + [last], backend), st.writes)
  {
    LoadedSnoc(init, last, backend);
    if last != "" {
      var v := GetItem(backend, last);
      assert (st.cache + Loaded(init, backend))[last := v] == st.cache + Loaded(init, backend)[last := v];
    }
  }

  /**
   * One SAVE per key, in list order, carrying the backend's value and no
   * persistence flag: the loaded entries are added and no write goes back to
   * the backend.
   */
  function Hydrated(st: StoreState, keys: seq<string>, backend: map<string, Value>): (r: StoreState)
    ensures r == StoreState(st.cache + Loaded(keys, backend), st.writes)
    decreases |keys|
  {
    if keys == [] then
      assert Loaded(keys, backend) == map[];
      st
    else
      var init, last := keys[..|keys| - 1], keys[|keys| - 1];
      assert keys == init + [last];
      HydrationStep(st, Hydrated(st, init, backend), init, last, backend);
      ApplySave(Hydrated(st, init, backend), Some(HydrationPayload(backend, last)))
  }

  /**
   * The hydration loop starts its reads concurrently and commits in whatever
   * order they finish; the resulting store does not depend on that order.
   */
  lemma HydrationOrderIrrelevant(st: StoreState, keys1: seq<string>, keys2: seq<string>, backend: map<string, Value>)
    requires forall k :: k in keys1 <==> k in keys2
    ensures Hydrated(st, keys1, backend) == Hydrated(st, keys2, backend)
  {
  }

  /**
   * A value saved under an allow-listed key is written to the backend, and a
   * fresh store hydrated from that backend reads it back without a fetch.
   */
  lemma PersistenceRoundTrip(st: StoreState, backend: map<string, Value>, key: string, data: Value)
    requires key in PersistenceDataKeys
    ensures var saved := ApplySave(st, Some(Payload(Str(key), data, IsPersistence(key))));
            var restarted := Hydrated(EmptyStore, PersistenceDataKeys, Flush(backend, saved.writes));
            GetCache(restarted.cache, key) == data
  {
  }

  // ---------------------------------------------------------------------
  // The store module, updated in place
  // ---------------------------------------------------------------------

  /** The store module's state: the cache map, and the log of writes sent to the durable backend. */
  class CacheStore {
    var cache: map<string, Value>
    var writes: seq<Write>

    constructor ()
      ensures State() == EmptyStore
    {
      cache := map[];
      writes := [];
    }

    function State(): StoreState
      reads this
    {
      StoreState(cache, writes)
    }

    /** The RESOURCE_CACHE_SAVE mutation. */
    method Save(payload: Option<Payload>)
      modifies this
      ensures State() == ApplySave(old(State()), payload)
    {
      if payload.None? {
        return;
      }
      var p := payload.value;
      if !Truthy(p.realKey) {
        return;
      }
      cache := cache[ToStr(p.realKey) := p.data];
      if Truthy(p.isPersistence) {
        writes := writes + [Write(p.realKey, p.data)];
      }
    }

    /** The RESOURCE_CACHE_DELETE mutation; `threw` when the payload is missing. */
    method Delete(payload: Option<Payload>) returns (threw: bool)
      modifies this
      ensures threw <==> payload.None?
      ensures !threw ==> State() == ApplyDelete(old(State()), payload).value
      ensures threw ==> State() == old(State())
    {
      if payload.None? {
        return true;
      }
      threw := false;
      var p := payload.value;
      if Truthy(p.realKey) {
        return;
      }
      cache := cache[ToStr(p.realKey) := Null];
    }

    /** The LOAD_ALL_PERSISTENCE_DATA action: one SAVE per allow-listed key. */
    method LoadAllPersistenceData(backend: map<string, Value>)
      modifies this
      ensures State() == Hydrated(old(State()), PersistenceDataKeys, backend)
    {
      var i := 0;
      while i < |PersistenceDataKeys|
        invariant 0 <= i <= |PersistenceDataKeys|
        invariant State() == Hydrated(old(State()), PersistenceDataKeys[..i], backend)
      {
        var key := PersistenceDataKeys[i];
        Save(Some(HydrationPayload(backend, key)));
        assert PersistenceDataKeys[..i + 1][..i] == PersistenceDataKeys[..i];
        i := i + 1;
      }
      assert PersistenceDataKeys[..i] == PersistenceDataKeys;
    }

    /**
     * `deleteCache`: dispatches RESOURCE_CACHE_DELETE as an action, but that
     * name is registered only as a mutation, so no handler runs and the store
     * is left as it is. `handled` says whether an action handler ran.
     */
    method DeleteCache(realKey: string) returns (handled: bool)
      ensures !handled
    {
      handled := ResourceCacheDelete in Actions;
    }
  }
}
