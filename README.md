# ember-local-storage: storage provisioning, modelled in Dafny

This project models the storage-provisioning layer of ember-local-storage
(`addon/helpers/storage.js`). That layer does three jobs:

- It probes the platform stores (`localStorage`, `sessionStorage`) once per
  name. When the probe fails, it hands out an empty fallback object instead.
- It keeps one process-wide dictionary of storage instances. Global storages
  are cached under their normalised key. Per-record storages are cached under
  the record's identity key `"{modelName}:{id}"`.
- It provisions an instance on a cache miss. It looks up the factory
  `storage:{key}`, checks and calls the factory's `initialState`, and builds
  the state record `{ _initialContent?, storageKey }`. It then calls the
  factory's `create` with that record, or wraps the factory as a plain object.

Layout:

- `wrappers.dfy` (`Wrappers`): `Option` and `Result`.
- `errors.dfy` (`Errors`): the thrown errors as values, with the exact messages of the TypeErrors.
- `keys.dfy` (`Keys`): JavaScript truthiness of an optional string property, `_modelKey`, the choice of `storageKey`, and a first-colon split that is the inverse of the identity key.
- `provisioning.dfy` (`Provisioning`): factories, the pure provisioning decision `Provision`, the step-by-step `CreateStorage`, and storage instances as objects.
- `storage.dfy` (`Storage`): the platform store as a class, `tryStorage`, and the module state as class `Registry`. `Registry.handles` is the `storage` dictionary and `Registry.instances` is the `storages` dictionary. The class holds `getStorage`, the two getters that `storageFor` builds, and `_resetStorages`, followed by client methods that run several calls in a row.

The model keeps one detail of the code exactly. A per-record instance is
cached under the bare identity key, and these entries share the dictionary
with the global ones. So two getters with different storage names over the
same record (`RecordEntryShared`) get one instance. The second getter's
factory is never consulted.

Three behaviours of the code worth noting:

- The probe is memoised per name, not per store kind. Every name other than
  `local` selects `sessionStorage`, and each such name gets its own probe and
  its own handle.
- The fallback is a bare empty object. It has no `getItem`/`setItem`.
- `legacyKey` and `initialState` are tested for truthiness. An empty
  `legacyKey` therefore does not override the key, and a falsy non-function
  `initialState` counts as absent.

## Model

| member | source | states |
|---|---|---|
| `Keys.ModelKey` | addon/helpers/storage.js:116-125 | succeeds exactly when the type name (`modelName`, else `constructor.typeKey`) and the id are both non-empty, and then is that name, a colon and the id; otherwise it fails with the missing-identity error |
| `Keys.ModelKeyRoundTrip` | addon/helpers/storage.js:116-125 | for a colon-free type name, splitting the identity key at its first colon gives back the type name and the id |
| `Keys.ModelKeyInjective` | addon/helpers/storage.js:66-73 | records with colon-free type names share a cache entry only if they agree on type name and id |
| `Keys.ModelKeyExamples` | addon/helpers/storage.js:116-125 | a `post` with id `7` has identity key `post:7`, whether the name comes from `modelName` or from `typeKey`; a record without id is rejected |
| `Keys.ModelKeyCollision` | addon/helpers/storage.js:116-125 | type names with colons make identity keys ambiguous: `a:b` with id `c` and `a` with id `b:c` both give `a:b:c` |
| `Keys.StorageKey` | addon/helpers/storage.js:82-89 | a truthy legacy key is the storage key; otherwise it is `storage:{key}:{modelKey}` when an identity key is present and `storage:{key}` when not |
| `Keys.StorageKeysSeparate` | addon/helpers/storage.js:82-89 | without a legacy key, a per-record storage key never equals the global key of the same storage, and different identity keys give different storage keys |
| `Provisioning.Provision` | addon/helpers/storage.js:81-114 | fails with `Unknown StorageFactory: storage:{key}` when no factory is registered, before any `initialState` check; fails when `initialState` is truthy but not a function, or when it throws; otherwise builds the instance with `create` exactly when the factory has one, passing `_initialContent` only when `initialState` is a function and always the selected `storageKey` |
| `Provisioning.CreateStorage` | addon/helpers/storage.js:81-114 | the statement-by-statement version returns a fresh instance built as `Provision` decides, or `Provision`'s error |
| `Provisioning.UnknownFactoryMessage` | addon/helpers/storage.js:97-99 | without a registered factory, provisioning fails with the TypeError text `Unknown StorageFactory: storage:{key}` |
| `Provisioning.ProvisionExamples` | addon/helpers/storage.js:91-107 | a `prefs` factory seeded by `initialState` gets that content with key `storage:prefs`, a legacy key `old-prefs` replaces the key whatever the record, and an unregistered name fails |
| `Storage.NativeStore.SetItem` | addon/helpers/storage.js:21 | `setItem` throws exactly when the platform refuses writes, and otherwise stores the item |
| `Storage.NativeStore.RemoveItem` | addon/helpers/storage.js:22 | `removeItem` throws exactly when the platform refuses removals, and otherwise deletes the item |
| `Storage.Probed` | addon/helpers/storage.js:19-25 | the probe changes no entry but the sentinel `emberlocalstorage.test`; after a probe that went through, the sentinel is absent; when naming the store or writing to it throws, nothing changes |
| `Storage.ProbeLeavesStoreUnchanged` | addon/helpers/storage.js:21-22 | a store without the sentinel is left exactly as it was by a probe that goes through |
| `Storage.TryStorage` | addon/helpers/storage.js:15-28 | never throws; returns the selected store (`localStorage` for `local`, `sessionStorage` for any other name) exactly when naming it, `setItem` and `removeItem` all succeed, else nothing; the store's items change as `Probed` says |
| `Storage.StorageFor` | addon/helpers/storage.js:40-58 | the key is normalised once, and the getter is per-record exactly when a non-empty property name is given |
| `Storage.SpellingsShareInstance` | addon/helpers/storage.js:44-53 | two keys that normalise alike reach one cache entry: once the first getter has provisioned, the second returns the same instance |
| `Storage.GlobalAndRecordShareEntry` | addon/helpers/storage.js:48-73 | global and per-record entries share one dictionary: a global getter on `post:7` and a per-record getter over post 7 return one instance |
| `Storage.Registry.constructor` | addon/helpers/storage.js:38 | at module load both dictionaries are empty |
| `Storage.Registry.GetStorage` | addon/helpers/storage.js:30-36 | the first call for a name probes the selected store and keeps it, or a fresh fallback object when the probe failed; a later call returns the kept handle and leaves the store untouched; every kept native handle is the store its name selects and one on which the probe went through |
| `Storage.Registry.ProvideGlobal` | addon/helpers/storage.js:46-53 | a cached key returns its instance and changes nothing; otherwise the instance `Provision` decides is created fresh and cached under the key, or the error is returned and nothing is cached |
| `Storage.Registry.ProvideForModel` | addon/helpers/storage.js:58-74 | a null or undefined property is returned unchanged and nothing is cached; a record without identity raises; otherwise the cache is consulted and filled under the bare identity key, with the identity key passed on for the storage key |
| `Storage.Registry.Reset` | addon/helpers/storage.js:127-129 | empties the instance cache |
| `Storage.GetStorageTwice` | addon/helpers/storage.js:30-36 | two calls for one name return the same handle, and the store is probed at most once |
| `Storage.EvaluateTwice` | addon/helpers/storage.js:47-53 | two evaluations of a global getter return the identical instance; a failed first evaluation is failed again and caches nothing |
| `Storage.ResetProvisionsAfresh` | addon/helpers/storage.js:127-129 | after a reset the next evaluation provisions a fresh instance, different from the one handed out before, whenever the factory allows it |
| `Storage.RecordEntryShared` | addon/helpers/storage.js:66-73 | two getters with different storage names over the same record return the same instance once the first has provisioned |
| `Storage.NullRecordPassesThrough` | addon/helpers/storage.js:59-64 | a null or undefined record is returned as it is and the cache is unchanged |

## Left out

- Ember's `computed` caching and dependency tracking. Each evaluation of a getter is an explicit method call.
- `Ember.String.dasherize` is a library routine that is not part of this model. `StorageFor` takes it as a function parameter.
- `Ember.assert` on the argument types. The Dafny types (`Options`, a string property name) make those checks hold by construction.
- The receiver passed to `initialState.call(context)`. The outcome of the call is fixed per factory: a returned value or an exception.
- `create` and `Ember.Object.create` are foreign constructors. Each yields a fresh `Instance` tagged with what it received. Exceptions they raise, and a falsy value returned by `create`, are not modelled.
- Names that coincide with members of `Object.prototype` (such as `constructor`). The code cannot tell these apart from cached entries. The two dictionaries are modelled as maps.
- Values read from a record property other than a record, null or undefined (such as `false`, `0` or `""`), and numeric ids. Ids and type names are strings.
- Errors from reading a record's `constructor` or calling `get('id')`.
- The encoding of values in the platform store, and the platform store's quota arithmetic. Whether `setItem` or `removeItem` throws is a fixed flag of the store.
