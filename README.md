# Resource cache of vue3-resource-demo, in Dafny

This project models `src/hooks/useResource.js`. That file holds a flat,
string-keyed resource cache that lives in one store module. It also holds
the `useResource` hook, which binds a component to one cache entry and
tracks whether that entry's fetch is in progress or has failed.

- **Key derivation.** `GetRealKey` joins the caller's key (coerced to a
  string) and the service's name with a dash.
- **Store module.** `CacheStore` holds the cache map and a log of the
  writes sent to the durable backend. It has methods for:
  - the SAVE mutation and the DELETE mutation;
  - the start-up action that hydrates every allow-listed key from the
    backend;
  - `deleteCache`.

  The first three are proved against pure functions on `StoreState`:
  `ApplySave`, `ApplyDelete` and `Hydrated`. The properties are proved
  about those functions. `DeleteCache` changes nothing, and its contract
  says that no handler runs.
- **Persistence allow-list.** `PersistenceDataKeys` lists the persistent
  keys. `Find` is the `Array.prototype.find` lookup. `IsPersistence` is the
  `isPersistence` value each resource computes, and it is truthy exactly for
  allow-listed keys.
- **Resource controller.** `Resource` is one `useResource` call, with its
  `loading` and `error` fields and a live `Data()` view of the shared cache.
  A fetch takes two steps:
  - `FetchData`, or `ReLoading`, calls the service;
  - `Settle` runs the promise's continuation. A resolved promise saves its
    data; a rejected one records the error. Either way `loading` is
    cleared.

  Several fetches may be in flight at once, counted by `pending`. Any
  settle clears `loading`, even while another fetch is still in flight.
  The scenario methods at the end of `resource.dfy` show the observable
  outcomes.
- **JavaScript semantics.** Module `JsValue` gives truthiness and string
  coercion for the values the code handles. Both matter here: SAVE and
  DELETE test `realKey` for truthiness, and a non-string key becomes a
  string property name.

Two behaviours of the code are reproduced as written:

- The DELETE mutation's guard is inverted. It returns at once for every
  truthy key. Only a falsy key reaches the assignment, and that stores
  `null` under the key's string form (`"undefined"`, `"null"`, `"false"`,
  `"0"` or `""`). So DELETE never removes an entry, and DELETE of a real
  key does nothing.
- `deleteCache` dispatches `RESOURCE_CACHE_DELETE` as an action. That name
  is registered only as a mutation, so no handler runs. The unmount
  handler registered by `options.save` therefore evicts nothing.

Three further facts about the code shape the model:

- Keys are flat strings.
- A successful fetch does not reset `error`.
- The mount-time fetch runs when the cached value is falsy or the key is
  allow-listed.

## Model

| member | source | states |
|---|---|---|
| ResourceCache.GetRealKey | src/hooks/useResource.js:56-58 | the real key is the caller's key as a string, then a dash, then the service name; it is never empty, so always truthy |
| ResourceCache.RealKeyInjective | src/hooks/useResource.js:56-58 | for dash-free service names, equal real keys mean equal key strings and equal service names |
| ResourceCache.RealKeyCollision | src/hooks/useResource.js:56-58 | with dashes in names, two different (key, service) pairs share the real key `a-b-c` |
| ResourceCache.Find | src/hooks/useResource.js:102 | `find` returns the target itself when it is in the list and `undefined` otherwise |
| ResourceCache.IsPersistence | src/hooks/useResource.js:102 | the `isPersistence` lookup over the allow-list of lines 10-12 is truthy exactly when the real key is in that list, and is otherwise `undefined` |
| ResourceCache.ApplySave | src/hooks/useResource.js:26-33 | a missing payload or falsy key changes nothing; otherwise the key reads back the data, every other entry is unchanged, and one backend write (key, data) is appended exactly when `isPersistence` is truthy |
| ResourceCache.SaveIdempotent | src/hooks/useResource.js:29-32 | repeating a SAVE leaves the cache as after the first, but a persistent SAVE reaches the backend twice |
| ResourceCache.GetCache | src/hooks/useResource.js:60-64 | reading a key never fails: an existing entry reads as the value it holds, a missing one as `undefined` |
| ResourceCache.StoredNullIsNotAbsent | src/hooks/useResource.js:60-64 | a never-written key has no entry and reads `undefined`; after saving `null` the entry exists and reads `null` |
| ResourceCache.ApplyDelete | src/hooks/useResource.js:22-25 | a missing payload throws; a truthy key leaves the store unchanged; a falsy key stores `null` under one of five names and changes nothing else; no entry is ever removed and no backend write is made |
| ResourceCache.DeleteOfRealKeyIsNoOp | src/hooks/useResource.js:22-25 | DELETE of any key made by `getRealKey` leaves the store exactly as it was |
| ResourceCache.Hydrated | src/hooks/useResource.js:37-44 | hydration sets each non-empty allow-listed key to its backend value (`null` when absent), keeps all other entries, and writes nothing back to the backend |
| ResourceCache.HydrationOrderIrrelevant | src/hooks/useResource.js:38-43 | the hydrated store does not depend on the order in which the per-key reads complete |
| ResourceCache.PersistenceRoundTrip | src/hooks/useResource.js:26-43 | a persistent SAVE reaches the backend, and a fresh store hydrated from that backend reads the saved value back |
| ResourceCache.CacheStore.constructor | src/hooks/useResource.js:16-20 | the module state starts with an empty cache and no backend writes |
| ResourceCache.CacheStore.Save | src/hooks/useResource.js:26-33 | the in-place SAVE mutation leaves the store in the state `ApplySave` describes |
| ResourceCache.CacheStore.Delete | src/hooks/useResource.js:22-25 | the in-place DELETE mutation throws exactly on a missing payload, and otherwise leaves the state `ApplyDelete` describes |
| ResourceCache.CacheStore.LoadAllPersistenceData | src/hooks/useResource.js:37-44 | the hydration loop commits one SAVE per allow-listed key and ends in the state `Hydrated` describes |
| ResourceCache.CacheStore.DeleteCache | src/hooks/useResource.js:66-70 | dispatching the DELETE name reaches no action handler and changes nothing |
| ResourceController.ShouldFetchOnMount | src/hooks/useResource.js:119-121 | the mount-time fetch runs exactly when the cached value is falsy or the key is allow-listed; when it does not run, the key has an entry |
| ResourceController.SettledStore | src/hooks/useResource.js:106-109 | a rejected fetch leaves the store unchanged; a resolved one stores its data under the real key, leaves other entries, and appends one backend write exactly when persistent, otherwise leaving the write log as it was |
| ResourceController.Resource.Data | src/hooks/useResource.js:98 | the `data` view reads the shared cache's current entry under the real key at the time of reading, or `undefined` when there is none |
| ResourceController.Resource.constructor | src/hooks/useResource.js:95-121 | `useResource` derives the real key and `isPersistence`, starts with no error, leaves the store unchanged, and starts one fetch with the given params exactly when the mount-time rule says so |
| ResourceController.Resource.FetchData | src/hooks/useResource.js:104-106 | starting a fetch sets `loading`, calls the service with the given params, and leaves `error` and the store alone |
| ResourceController.Resource.ReLoading | src/hooks/useResource.js:115-117 | a reload with an `undefined` argument fetches with the original params, otherwise with the argument |
| ResourceController.Resource.Settle | src/hooks/useResource.js:106-112 | any settle clears `loading`; a rejection records the reason and keeps the cache; a resolution saves the data and keeps the old error; `loading` implies a fetch is pending |
| ResourceController.Resource.Unmount | src/hooks/useResource.js:123-127 | the registered unmount handler evicts nothing |
| ResourceController.FetchSucceeds | src/hooks/useResource.js:104-121 | on an empty cache the mount fetch uses the given params, and its success leaves `loading` false, error `null` and the data visible |
| ResourceController.ReloadFails | src/hooks/useResource.js:106-117 | a rejected reload leaves `loading` false, records the reason, keeps the earlier cached value visible, and used the original params |
| ResourceController.ErrorOutlivesSuccess | src/hooks/useResource.js:106-109 | after a rejection, a later success shows its data while the earlier error remains |
| ResourceController.OverlappingFetches | src/hooks/useResource.js:104-113 | with two fetches in flight, the first to settle clears `loading` while one is still pending, and the last to settle decides the value |
| ResourceController.SharedKeyPropagation | src/hooks/useResource.js:98 | resources on the same key all see a value saved by any one of them; each keeps its own `loading` |
| ResourceController.PersistentResourceMirrors | src/hooks/useResource.js:102-121 | the allow-listed resource fetches on mount even with a cached value, and its success is written to the backend once |
| ResourceController.CachedResourceSkipsFetch | src/hooks/useResource.js:119-121 | a truthy cached value under a key that is not allow-listed suppresses the mount fetch |

## Left out

- Vue reactivity (`computed`, `ref`, `onUnmounted`) is not modelled.
  `Data()` is the computed view, the fields are the refs, and `Unmount`
  is the unmount hook.
- Vuex routing is not modelled: `useStore`, `commit`/`dispatch`, and the
  module wiring in `src/store/index.js`. The SAVE commit in `setCache` is a
  direct call to `CacheStore.Save`. The `loadAllPersistenceData` wrapper,
  which only dispatches the action, is `CacheStore.LoadAllPersistenceData`
  itself. Only one piece of routing is kept: the unknown-action lookup in
  `DeleteCache`.
- The `localforage` backend is not modelled.
  - Hydration reads a given map, and a missing key reads as `null`.
  - Writes are a log of `setItem(key, data)` calls, and they never fail.
  - Reads never fail. A rejected `getItem` during hydration would skip that
    key's SAVE, and that case is not modelled.
  - `Flush` replays the log into a map under `String(key)`, with values
    stored as given. The backend's own key normalisation and value
    serialisation (for example, `undefined` read back as `null`) are not
    part of this model.
- Promise scheduling is not modelled.
  - `then`, `catch` and `finally` run as one `Settle` step, so nothing can
    observe the microtask gap between the cache write and `loading` turning
    false.
  - A service that throws synchronously, or returns something that is not a
    promise, is not modelled.
  - A `service` that is `null` or not a function would throw when its name
    is read or when it is called. That case is not modelled: `Resource`
    takes the service's name as a string.
  - A fetch that never settles is one that is never passed to `Settle`.
- Hydration's per-key reads run concurrently. The model commits them in
  list order, and `HydrationOrderIrrelevant` shows that the order does not
  matter. A hydration that completes after a resource has mounted is a
  matter of interleaving the calls.
- Only part of JavaScript's values is modelled.
  - Numbers are safe integers, with magnitude at most 2^53 - 1. `NaN`,
    `-0`, fractions and larger magnitudes are not modelled. Those include
    numbers of 10^21 or more, which `String` prints in exponent notation.
  - Objects are plain objects whose string form is `[object Object]`.
    Arrays, functions and symbols are not modelled.
  - The cache is a plain object, so it has property names inherited from
    its prototype, such as `toString` and `__proto__`. That effect is not
    modelled; every real key contains a dash, and none of those names do.
- `options` is taken as its `save` field. A `null` options argument, which
  would throw, is not modelled.
- Hierarchical key-paths, `setData`, `loadMore`, pagination merge, and the
  `cleanAfter`/`noFatch` options are not modelled. The code has none of
  them.
