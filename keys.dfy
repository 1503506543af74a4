/**
 * Key derivation: the identity key of a record (`_modelKey`) and the key a
 * storage instance persists under (the `storageKey` selection of
 * `createStorage`).
 */
module Keys {
  import opened Wrappers
  import opened Errors

  /** A JavaScript property that is missing (undefined or null) or holds a string. */
  datatype Prop = Absent | Text(s: string)

  /** JavaScript truthiness of such a property: a missing value and "" are falsy. */
  predicate Truthy(p: Prop) {
    p.Text? && p.s != ""
  }

  /** What `_modelKey` reads from a record: `modelName`, `constructor.typeKey` and `get('id')`. */
  datatype Model = Model(modelName: Prop, typeKey: Prop, id: Prop)

  /** Every factory name, and every storage key that is not a legacy key, starts with this. */
  const FactoryPrefix: string := "storage:"

  /** The container name of the factory for a normalised key. */
  function FactoryName(key: string): (name: string) {
    FactoryPrefix + key
  }

  /** `model.modelName || model.constructor.typeKey` */
  function TypeName(m: Model): (name: Prop) {
    if Truthy(m.modelName) then m.modelName else m.typeKey
  }

  /**
   * The identity key of a record: its type name and its id joined by a colon.
   * It fails when either part is missing or empty, and the type name comes
   * from `modelName` unless that is falsy.
   */
  function ModelKey(m: Model): (r: Result<string, Error>)
    ensures r.Success? <==> Truthy(TypeName(m)) && Truthy(m.id)
    ensures r.Failure? ==> r.error == InvalidModel
    ensures r.Success? && Truthy(m.modelName) ==> r.value == m.modelName.s + ":" + m.id.s
    ensures r.Success? && !Truthy(m.modelName) ==> r.value == m.typeKey.s + ":" + m.id.s
  {
    var name := TypeName(m);
    if !Truthy(name) || !Truthy(m.id) then Failure(InvalidModel)
    else Success(name.s + ":" + m.id.s)
  }

  /**
   * The key the instance persists under: a truthy legacy key wins outright;
   * otherwise the factory name, followed by the identity key when there is one.
   */
  function StorageKey(key: string, modelKey: Prop, legacyKey: Prop): (r: string)
    ensures Truthy(legacyKey) ==> r == legacyKey.s
    ensures !Truthy(legacyKey) && !Truthy(modelKey) ==> r == FactoryName(key)
    ensures !Truthy(legacyKey) && Truthy(modelKey) ==> r == FactoryName(key) + ":" + modelKey.s
  {
    if Truthy(legacyKey) then legacyKey.s
    else if Truthy(modelKey) then FactoryName(key) + ":" + modelKey.s
    else FactoryName(key)
  }

  /** The position of the first colon in `s`, if any. */
  function FirstColon(s: string): (r: Option<nat>)
    ensures r.Some? ==> r.value < |s| && s[r.value] == ':' && ':' !in s[..r.value]
    ensures r.None? ==> ':' !in s
  {
    if s == [] then None
    else if s[0] == ':' then Some(0)
    else match FirstColon(s[1..])
      case None => None
      case Some(i) => Some(i + 1)
  }

  /** Splits an identity key back into its type name and id, at the first colon. */
  function SplitModelKey(s: string): (parts: Option<(string, string)>) {
    match FirstColon(s)
    case None => None
    case Some(i) => Some((s[..i], s[i + 1..]))
  }

  /** In a colon-free type name followed by a colon, the first colon is the one after the name. */
  lemma {:induction false} FirstColonAfterName(name: string, id: string)
    requires ':' !in name
    ensures FirstColon(name + ":" + id) == Some(|name|)
  {
    if name != [] {
      assert (name + ":" + id)[1..] == name[1..] + ":" + id;
      FirstColonAfterName(name[1..], id);
    }
  }

  /** Joining a colon-free type name and an id, then splitting, gives both parts back. */
  lemma JoinThenSplit(name: string, id: string)
    requires ':' !in name
    ensures SplitModelKey(name + ":" + id) == Some((name, id))
  {
    var s := name + ":" + id;
    FirstColonAfterName(name, id);
    assert s[..|name|] == name;
    assert s[|name| + 1..] == id;
  }

  /**
   * For a record whose type name has no colon (Ember Data type names are
   * dasherized), the identity key determines the type name and the id.
   */
  lemma ModelKeyRoundTrip(m: Model)
    requires ModelKey(m).Success? && ':' !in TypeName(m).s
    ensures SplitModelKey(ModelKey(m).value) == Some((TypeName(m).s, m.id.s))
  {
    JoinThenSplit(TypeName(m).s, m.id.s);
  }

  /** Two records with colon-free type names share an identity key only if they agree on type name and id. */
  lemma ModelKeyInjective(m1: Model, m2: Model)
    requires ModelKey(m1).Success? && ModelKey(m2).Success?
    requires ':' !in TypeName(m1).s && ':' !in TypeName(m2).s
    requires ModelKey(m1).value == ModelKey(m2).value
    ensures TypeName(m1).s == TypeName(m2).s && m1.id.s == m2.id.s
  {
    ModelKeyRoundTrip(m1);
    ModelKeyRoundTrip(m2);
  }

  /**
   * Without a legacy key, storage keys keep apart what they should: the
   * global key of a storage differs from each of its per-record keys, and
   * two different identity keys give two different per-record keys.
   */
  lemma StorageKeysSeparate(key: string, mk1: Prop, mk2: Prop, legacyKey: Prop)
    requires !Truthy(legacyKey)
    ensures Truthy(mk1) ==> StorageKey(key, mk1, legacyKey) != StorageKey(key, Absent, legacyKey)
    ensures Truthy(mk1) && Truthy(mk2) && mk1.s != mk2.s ==>
              StorageKey(key, mk1, legacyKey) != StorageKey(key, mk2, legacyKey)
  {
    var p := FactoryName(key) + ":";
    if Truthy(mk1) && Truthy(mk2) && mk1.s != mk2.s {
      var k1, k2 := StorageKey(key, mk1, legacyKey), StorageKey(key, mk2, legacyKey);
      assert k1[|p|..] == mk1.s && k2[|p|..] == mk2.s;
    }
  }

  /**
   * Without the colon-free condition the identity key is ambiguous: type
   * name "a:b" with id "c" and type name "a" with id "b:c" both give "a:b:c".
   */
  lemma ModelKeyCollision()
    ensures ModelKey(Model(Text("a:b"), Absent, Text("c"))) == Success("a:b:c")
    ensures ModelKey(Model(Text("a"), Absent, Text("b:c"))) == Success("a:b:c")
  {
    assert "a:b" + ":" + "c" == "a:b:c";
    assert "a" + ":" + "b:c" == "a:b:c";
  }

  /** The identity key of a post with id "7" is "post:7"; without an id the record is rejected. */
  lemma ModelKeyExamples()
    ensures ModelKey(Model(Text("post"), Absent, Text("7"))) == Success("post:7")
    ensures ModelKey(Model(Absent, Text("post"), Text("7"))) == Success("post:7")
    ensures ModelKey(Model(Text("post"), Absent, Absent)) == Failure(InvalidModel)
  {
    assert "post" + ":" + "7" == "post:7";
  }
}
