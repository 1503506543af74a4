/**
 * The provisioning decision of `createStorage`: find the factory, seed the
 * initial state, and construct the instance.
 */
module Provisioning {
  import opened Wrappers
  import opened Errors
  import opened Keys

  /** Whatever the factory's `initialState` function returns; opaque here. */
  type Content = string

  /** The outcome of calling the factory's `initialState` function. */
  datatype CallOutcome = Returns(content: Content) | Raises

  /** The factory's `initialState` property, classified as the code tests it. */
  datatype InitialState =
    | NoInitialState             // undefined, or any other falsy value
    | Function(call: CallOutcome)
    | NonFunction                // truthy, but not a function

  /** A registered storage factory; `hasCreate` says whether it has a `create` method. */
  datatype Factory = Factory(initialState: InitialState, hasCreate: bool)

  /** The host's container, as far as `lookupFactory` goes: factory name to factory. */
  type Container = map<string, Factory>

  /** The record handed to `create`: `_initialContent` (only when seeded) and `storageKey`. */
  datatype State = State(initialContent: Option<Content>, storageKey: string)

  /** How an instance came to be: `create(state)` of a factory, or the factory wrapped as a plain object. */
  datatype Origin = Created(factory: string, state: State) | Wrapped(factory: string)

  /** A storage instance: a fresh object, tagged with how it was built. */
  class Instance {
    const origin: Origin

    constructor (origin: Origin)
      ensures this.origin == origin
    {
      this.origin := origin;
    }
  }

  /** An `initialState` that lets provisioning go on: absent, or a function that returns. */
  predicate Usable(init: InitialState) {
    init.NoInitialState? || (init.Function? && init.call.Returns?)
  }

  /** The content a usable `initialState` seeds the record with. */
  function Seeded(init: InitialState): (content: Option<Content>) {
    if init.Function? && init.call.Returns? then Some(init.call.content) else None
  }

  /**
   * What `createStorage` builds, or why it fails. An unknown factory is
   * reported before anything about `initialState`; a usable factory gives
   * an instance built by `create` exactly when the factory has one, and only
   * that path receives the state record.
   */
  function Provision(container: Container, key: string, modelKey: Prop, legacyKey: Prop): (r: Result<Origin, Error>)
    ensures FactoryName(key) !in container ==> r == Failure(UnknownFactory(FactoryName(key)))
    ensures FactoryName(key) in container && container[FactoryName(key)].initialState.NonFunction? ==>
              r == Failure(InitialStateNotFunction)
    ensures FactoryName(key) in container && container[FactoryName(key)].initialState == Function(Raises) ==>
              r == Failure(InitialStateRaised)
    ensures r.Success? <==> FactoryName(key) in container && Usable(container[FactoryName(key)].initialState)
    ensures r.Success? ==> r.value.factory == FactoryName(key)
    ensures r.Success? ==> (r.value.Created? <==> container[FactoryName(key)].hasCreate)
    ensures r.Success? && r.value.Created? ==>
              r.value.state == State(Seeded(container[FactoryName(key)].initialState), StorageKey(key, modelKey, legacyKey))
  {
    var name := FactoryName(key);
    if name !in container then Failure(UnknownFactory(name))
    else
      var factory := container[name];
      match factory.initialState
      case NonFunction => Failure(InitialStateNotFunction)
      case Function(Raises) => Failure(InitialStateRaised)
      case _ =>
        var state := State(Seeded(factory.initialState), StorageKey(key, modelKey, legacyKey));
        if factory.hasCreate then Success(Created(name, state)) else Success(Wrapped(name))
  }

  /**
   * `createStorage` step by step: the record starts empty, gains
   * `_initialContent` from the factory's `initialState` function, then
   * `storageKey`, and goes to `create` or is ignored by the plain-object path.
   */
  method CreateStorage(container: Container, key: string, modelKey: Prop, legacyKey: Prop)
    returns (r: Result<Instance, Error>)
    ensures Provision(container, key, modelKey, legacyKey).Failure? ==>
              r == Failure(Provision(container, key, modelKey, legacyKey).error)
    ensures Provision(container, key, modelKey, legacyKey).Success? ==>
              r.Success? && fresh(r.value) && r.value.origin == Provision(container, key, modelKey, legacyKey).value
  {
    var name := FactoryName(key);
    var storageKey := StorageKey(key, modelKey, legacyKey);
    var initialContent: Option<Content> := None;
    if name !in container {
      return Failure(UnknownFactory(name));
    }
    var factory := container[name];
    match factory.initialState {
      case Function(call) =>
        if call.Raises? {
          return Failure(InitialStateRaised);
        }
        initialContent := Some(call.content);
      case NonFunction =>
        return Failure(InitialStateNotFunction);
      case NoInitialState =>
    }
    var state := State(initialContent, storageKey);
    var instance: Instance;
    if factory.hasCreate {
      instance := new Instance(Created(name, state));
    } else {
      instance := new Instance(Wrapped(name));
    }
    return Success(instance);
  }

  /** A provisioning that finds no factory fails with the TypeError text naming the factory. */
  lemma UnknownFactoryMessage(container: Container, key: string, modelKey: Prop, legacyKey: Prop)
    requires FactoryName(key) !in container
    ensures Provision(container, key, modelKey, legacyKey).Failure?
    ensures TypeErrorMessage(Provision(container, key, modelKey, legacyKey).error) == "Unknown StorageFactory: storage:" + key
  {
    assert "Unknown StorageFactory: " + FactoryName(key) == "Unknown StorageFactory: storage:" + key;
  }

  /**
   * A `prefs` factory whose `initialState` returns some content gets that
   * content and the key "storage:prefs"; with a legacy key "old-prefs" the
   * key is "old-prefs" whatever the record.
   */
  lemma ProvisionExamples(content: Content, mk: Prop)
    ensures var c := map["storage:prefs" := Factory(Function(Returns(content)), true)];
            Provision(c, "prefs", Absent, Absent) == Success(Created("storage:prefs", State(Some(content), "storage:prefs")))
            && Provision(c, "prefs", mk, Text("old-prefs")) == Success(Created("storage:prefs", State(Some(content), "old-prefs")))
            && Provision(c, "favorites", Absent, Absent) == Failure(UnknownFactory("storage:favorites"))
  {
    assert FactoryName("prefs") == "storage:prefs";
    assert FactoryName("favorites") == "storage:favorites";
  }
}
