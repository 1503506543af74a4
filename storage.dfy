/**
 * The two process-wide dictionaries of the storage helpers: `storage`, one
 * probed platform store per name, and `storages`, one provisioned instance
 * per cache key; with the probe and the getters that `storageFor` builds.
 */
module Storage {
  import opened Wrappers
  import opened Errors
  import opened Keys
  import opened Provisioning

  /** The item the probe writes and removes again. */
  const Sentinel: string := "emberlocalstorage.test"
  const SentinelValue: string := "ok"

  /**
   * A platform key/value store, `localStorage` or `sessionStorage`. The
   * constant flags are the platform's behaviour: whether naming the global
   * throws, whether `setItem` throws (private browsing, quota) and whether
   * `removeItem` throws.
   */
  class NativeStore {
    var items: map<string, string>
    const reachable: bool
    const acceptsWrites: bool
    const acceptsRemoves: bool

    constructor (items: map<string, string>, reachable: bool, acceptsWrites: bool, acceptsRemoves: bool)
      ensures this.items == items && this.reachable == reachable
      ensures this.acceptsWrites == acceptsWrites && this.acceptsRemoves == acceptsRemoves
    {
      this.items := items;
      this.reachable := reachable;
      this.acceptsWrites := acceptsWrites;
      this.acceptsRemoves := acceptsRemoves;
    }

    /** `setItem`; `thrown` stands for the exception it raises. */
    method SetItem(k: string, v: string) returns (thrown: bool)
      modifies this
      ensures thrown == !acceptsWrites
      ensures items == if thrown then old(items) else old(items)[k := v]
    {
      thrown := !acceptsWrites;
      if !thrown {
        items := items[k := v];
      }
    }

    /** `removeItem`; `thrown` stands for the exception it raises. */
    method RemoveItem(k: string) returns (thrown: bool)
      modifies this
      ensures thrown == !acceptsRemoves
      ensures items == if thrown then old(items) else old(items) - {k}
    {
      thrown := !acceptsRemoves;
      if !thrown {
        items := items - {k};
      }
    }
  }

  /** `local` selects `localStorage`; every other name selects `sessionStorage`. */
  function Selected(name: string, local: NativeStore, session: NativeStore): (store: NativeStore) {
    if name == "local" then local else session
  }

  /** A store on which the whole probe goes through. */
  predicate Works(s: NativeStore) {
    s.reachable && s.acceptsWrites && s.acceptsRemoves
  }

  /**
   * The items of `s` after the probe, given the items before it. Only the
   * sentinel entry can differ, and after a probe that went through it is gone.
   */
  function Probed(s: NativeStore, before: map<string, string>): (after: map<string, string>)
    ensures forall k :: k != Sentinel ==> (k in after <==> k in before)
    ensures forall k :: k != Sentinel && k in after ==> after[k] == before[k]
    ensures Works(s) ==> Sentinel !in after
    ensures !s.reachable || !s.acceptsWrites ==> after == before
  {
    if !s.reachable || !s.acceptsWrites then before
    else if !s.acceptsRemoves then before[Sentinel := SentinelValue]
    else before - {Sentinel}
  }

  /** A store that does not hold the sentinel beforehand is left exactly as it was by a probe that goes through. */
  lemma ProbeLeavesStoreUnchanged(s: NativeStore, before: map<string, string>)
    requires Works(s) && Sentinel !in before
    ensures Probed(s, before) == before
  {
  }

  /**
   * `tryStorage`: never throws; gives the selected store when writing and
   * removing the sentinel both succeed, and nothing otherwise.
   */
  method TryStorage(name: string, local: NativeStore, session: NativeStore) returns (r: Option<NativeStore>)
    modifies Selected(name, local, session)
    ensures r.Some? <==> Works(Selected(name, local, session))
    ensures r.Some? ==> r.value == Selected(name, local, session)
    ensures Selected(name, local, session).items ==
              Probed(Selected(name, local, session), old(Selected(name, local, session).items))
  {
    var store := Selected(name, local, session);
    if !store.reachable {
      return None;
    }
    var thrown := store.SetItem(Sentinel, SentinelValue);
    if thrown {
      return None;
    }
    thrown := store.RemoveItem(Sentinel);
    if thrown {
      return None;
    }
    return Some(store);
  }

  /** The empty object `{}` that stands in for an unusable platform store. */
  class FallbackObject {
    constructor () {}
  }

  /** What `getStorage` hands out: the platform store itself or a fallback object. */
  datatype Handle = Native(store: NativeStore) | Fallback(obj: FallbackObject)

  /** The `options` argument of `storageFor`. */
  datatype Options = Options(legacyKey: Prop)

  /** The getter `storageFor` builds: over a global key, or over the record in a host property. */
  datatype Accessor =
    | Global(key: string, options: Options)
    | PerModel(key: string, property: string, options: Options)

  /**
   * `storageFor`: normalises the key once, and builds a per-record getter
   * exactly when a property name is given.
   */
  function StorageFor(rawKey: string, modelProperty: Prop, options: Options, dasherize: string -> string): (a: Accessor)
    ensures a.key == dasherize(rawKey) && a.options == options
    ensures a.PerModel? <==> Truthy(modelProperty)
    ensures a.PerModel? ==> a.property == modelProperty.s
  {
    if !Truthy(modelProperty) then Global(dasherize(rawKey), options)
    else PerModel(dasherize(rawKey), modelProperty.s, options)
  }

  /** The value of a host property that should hold a record. */
  datatype ModelValue = Null | Undefined | Record(model: Model)

  /** The object a getter is evaluated on: its container and its properties. */
  datatype Host = Host(container: Container, properties: map<string, ModelValue>)

  /** `this.get(property)`; a property that was never set reads as undefined. */
  function Get(host: Host, property: string): (value: ModelValue) {
    if property in host.properties then host.properties[property] else Undefined
  }

  /** What a per-record getter evaluates to. */
  datatype Evaluation = Provided(instance: Instance) | PassedThrough(value: ModelValue) | Raised(error: Error)

  /** The module state: the `storage` and `storages` dictionaries and the two platform stores. */
  class Registry {
    var handles: map<string, Handle>
    var instances: map<string, Instance>
    const local: NativeStore
    const session: NativeStore

    /** Every native handle is the store its name selects, and one on which the probe went through. */
    ghost predicate Valid()
      reads this
    {
      forall name :: name in handles && handles[name].Native? ==>
        handles[name].store == Selected(name, local, session) && Works(handles[name].store)
    }

    /** Module load: both dictionaries empty. */
    constructor (local: NativeStore, session: NativeStore)
      ensures Valid()
      ensures handles == map[] && instances == map[]
      ensures this.local == local && this.session == session
    {
      handles := map[];
      instances := map[];
      this.local := local;
      this.session := session;
    }

    /**
     * `getStorage`: the first call for a name probes its store and keeps the
     * store, or a fresh fallback object when the probe failed; every later
     * call returns the kept handle and does not touch the store.
     */
    method GetStorage(name: string) returns (h: Handle)
      requires Valid()
      modifies this`handles, Selected(name, local, session)
      ensures Valid()
      ensures name in old(handles) ==>
                h == old(handles)[name] && handles == old(handles)
                && Selected(name, local, session).items == old(Selected(name, local, session).items)
      ensures name !in old(handles) ==> handles == old(handles)[name := h]
      ensures name !in old(handles) ==>
                Selected(name, local, session).items ==
                Probed(Selected(name, local, session), old(Selected(name, local, session).items))
      ensures name !in old(handles) ==> (h.Native? <==> Works(Selected(name, local, session)))
      ensures name !in old(handles) && h.Native? ==> h.store == Selected(name, local, session)
      ensures name !in old(handles) && h.Fallback? ==> fresh(h.obj)
    {
      if name in handles {
        return handles[name];
      }
      var probed := TryStorage(name, local, session);
      if probed.Some? {
        h := Native(probed.value);
      } else {
        var empty := new FallbackObject();
        h := Fallback(empty);
      }
      handles := handles[name := h];
    }

    /**
     * The getter over a global key: provisions on the first evaluation and
     * caches the instance under the key; later evaluations return it. A
     * failed provisioning leaves the cache as it was.
     */
    method ProvideGlobal(a: Accessor, host: Host) returns (r: Result<Instance, Error>)
      requires a.Global?
      modifies this`instances
      ensures a.key in old(instances) ==> r == Success(old(instances)[a.key]) && instances == old(instances)
      ensures a.key !in old(instances) && Provision(host.container, a.key, Absent, a.options.legacyKey).Failure? ==>
                r == Failure(Provision(host.container, a.key, Absent, a.options.legacyKey).error)
                && instances == old(instances)
      ensures a.key !in old(instances) && Provision(host.container, a.key, Absent, a.options.legacyKey).Success? ==>
                r.Success? && fresh(r.value)
                && r.value.origin == Provision(host.container, a.key, Absent, a.options.legacyKey).value
                && instances == old(instances)[a.key := r.value]
    {
      if a.key !in instances {
        var created := CreateStorage(host.container, a.key, Absent, a.options.legacyKey);
        if created.Failure? {
          return Failure(created.error);
        }
        instances := instances[a.key := created.value];
      }
      return Success(instances[a.key]);
    }

    /**
     * The getter over a record: a null or undefined property is returned as
     * it is; otherwise the instance is cached under the record's bare
     * identity key, shared by every storage name used with that record.
     */
    method ProvideForModel(a: Accessor, host: Host) returns (r: Evaluation)
      requires a.PerModel?
      modifies this`instances
      ensures !Get(host, a.property).Record? ==>
                r == PassedThrough(Get(host, a.property)) && instances == old(instances)
      ensures Get(host, a.property).Record? && ModelKey(Get(host, a.property).model).Failure? ==>
                r == Raised(InvalidModel) && instances == old(instances)
      ensures Get(host, a.property).Record? && ModelKey(Get(host, a.property).model).Success? ==>
                var mk := ModelKey(Get(host, a.property).model).value;
                var p := Provision(host.container, a.key, Text(mk), a.options.legacyKey);
                if mk in old(instances) then
                  r == Provided(old(instances)[mk]) && instances == old(instances)
                else if p.Failure? then
                  r == Raised(p.error) && instances == old(instances)
                else
                  r.Provided? && fresh(r.instance) && r.instance.origin == p.value
                  && instances == old(instances)[mk := r.instance]
    {
      var value := Get(host, a.property);
      if !value.Record? {
        return PassedThrough(value);
      }
      var key := ModelKey(value.model);
      if key.Failure? {
        return Raised(key.error);
      }
      var mk := key.value;
      if mk !in instances {
        var created := CreateStorage(host.container, a.key, Text(mk), a.options.legacyKey);
        if created.Failure? {
          return Raised(created.error);
        }
        instances := instances[mk := created.value];
      }
      return Provided(instances[mk]);
    }

    /** `_resetStorages`: forgets every instance; the probed handles stay. */
    method Reset()
      modifies this`instances
      ensures instances == map[]
    {
      instances := map[];
    }
  }

  /** Asking twice for the same name gives the same handle, and only the first call probes. */
  method GetStorageTwice(reg: Registry, name: string) returns (first: Handle, second: Handle)
    requires reg.Valid()
    modifies reg`handles, Selected(name, reg.local, reg.session)
    ensures reg.Valid() && second == first && name in reg.handles && reg.handles[name] == first
    ensures Selected(name, reg.local, reg.session).items ==
              if name in old(reg.handles) then old(Selected(name, reg.local, reg.session).items)
              else Probed(Selected(name, reg.local, reg.session), old(Selected(name, reg.local, reg.session).items))
  {
    first := reg.GetStorage(name);
    second := reg.GetStorage(name);
  }

  /**
   * Evaluating a global getter twice gives the identical instance; when the
   * first evaluation fails, so does the second, and nothing is cached.
   */
  method EvaluateTwice(reg: Registry, a: Accessor, host: Host) returns (first: Result<Instance, Error>, second: Result<Instance, Error>)
    requires a.Global?
    modifies reg`instances
    ensures first.Success? ==> second == first && a.key in reg.instances && reg.instances[a.key] == first.value
    ensures first.Failure? ==> second == first && reg.instances == old(reg.instances)
  {
    first := reg.ProvideGlobal(a, host);
    second := reg.ProvideGlobal(a, host);
  }

  /** After a reset the next evaluation provisions a new instance, never the one handed out before. */
  method ResetProvisionsAfresh(reg: Registry, a: Accessor, host: Host) returns (before: Result<Instance, Error>, after: Result<Instance, Error>)
    requires a.Global?
    modifies reg`instances
    ensures Provision(host.container, a.key, Absent, a.options.legacyKey).Success? ==> after.Success?
    ensures after.Success? ==> fresh(after.value) && reg.instances == map[a.key := after.value]
    ensures before.Success? && after.Success? ==> after.value != before.value
  {
    before := reg.ProvideGlobal(a, host);
    reg.Reset();
    after := reg.ProvideGlobal(a, host);
  }

  /**
   * Two getters with different storage names over the same record share one
   * cache entry: once the first has provisioned, the second returns the
   * first one's instance, and its own factory is never consulted.
   */
  method RecordEntryShared(reg: Registry, a1: Accessor, a2: Accessor, host: Host) returns (r1: Evaluation, r2: Evaluation)
    requires a1.PerModel? && a2.PerModel? && a1.property == a2.property
    modifies reg`instances
    ensures r1.Provided? ==> r2 == r1
  {
    r1 := reg.ProvideForModel(a1, host);
    r2 := reg.ProvideForModel(a2, host);
  }

  /** A getter over a property that holds null or undefined provisions nothing and returns that value. */
  method NullRecordPassesThrough(reg: Registry, a: Accessor, host: Host) returns (r: Evaluation)
    requires a.PerModel? && Get(host, a.property) in {Null, Undefined}
    modifies reg`instances
    ensures r == PassedThrough(Get(host, a.property)) && reg.instances == old(reg.instances)
  {
    r := reg.ProvideForModel(a, host);
  }

  /**
   * Spellings of a key that normalise alike get one getter key, and so one
   * cached instance: once the first has provisioned, the second returns it.
   */
  method SpellingsShareInstance(reg: Registry, k1: string, k2: string, options: Options,
                                dasherize: string -> string, host: Host)
    returns (r1: Result<Instance, Error>, r2: Result<Instance, Error>)
    requires dasherize(k1) == dasherize(k2)
    modifies reg`instances
    ensures r1.Success? ==> r2 == r1
  {
    r1 := reg.ProvideGlobal(StorageFor(k1, Absent, options, dasherize), host);
    r2 := reg.ProvideGlobal(StorageFor(k2, Absent, options, dasherize), host);
  }

  /**
   * Global and per-record entries share one dictionary: a global getter on
   * the key "post:7" and a per-record getter over post 7 return one instance.
   */
  method GlobalAndRecordShareEntry(reg: Registry, options: Options, property: string,
                                   dasherize: string -> string, host: Host)
    returns (r1: Result<Instance, Error>, r2: Evaluation)
    requires dasherize("post:7") == "post:7" && property != ""
    requires Get(host, property) == Record(Model(Text("post"), Absent, Text("7")))
    modifies reg`instances
    ensures r1.Success? ==> r2 == Provided(r1.value)
  {
    r1 := reg.ProvideGlobal(StorageFor("post:7", Absent, options, dasherize), host);
    assert "post" + ":" + "7" == "post:7";
    r2 := reg.ProvideForModel(StorageFor("comments", Text(property), options, dasherize), host);
  }
}
