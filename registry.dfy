/**
 * The static model registry of the relay: the user-facing model keys, the
 * provider model identifier each key stands for, and the listing served to
 * callers. The table is read-only after start-up.
 */
module Registry {
  import opened Wrappers

  /** One row of the registry: user-facing key and provider model identifier. */
  datatype Entry = Entry(key: string, model: string)

  /** The listing entry served for one registry row. */
  datatype ModelInfo = ModelInfo(id: string, name: string, model: string)

  /** The registry, in the order its keys are enumerated. */
  const Models: seq<Entry> := [
    Entry("llama-3-70b", "llama3-70b-8192"),
    Entry("mixtral-8x7b", "mixtral-8x7b-32768")
  ]

  /** The key a chat request uses when it names no model. */
  const DefaultModel: string := "llama-3-70b"

  /** No key occurs twice in `entries`. */
  predicate DistinctKeys(entries: seq<Entry>) {
    forall i, j :: 0 <= i < j < |entries| ==> entries[i].key != entries[j].key
  }

  /** The first row of `entries` whose key is `key`, if any. */
  function Find(entries: seq<Entry>, key: string): (r: Option<nat>)
    ensures r.Some? ==> r.value < |entries| && entries[r.value].key == key
    ensures r.Some? ==> forall i :: 0 <= i < r.value ==> entries[i].key != key
    ensures r.None? <==> forall i :: 0 <= i < |entries| ==> entries[i].key != key
    decreases |entries|
  {
    if entries == [] then None
    else if entries[0].key == key then Some(0)
    else match Find(entries[1..], key)
      case None => None
      case Some(i) => Some(i + 1)
  }

  /** The provider model identifier registered under `key`: an own key of the table only. */
  function Lookup(key: string): (r: Option<string>)
    ensures r.Some? <==> exists i :: 0 <= i < |Models| && Models[i].key == key
    ensures r.Some? ==> exists i :: 0 <= i < |Models| && Models[i] == Entry(key, r.value)
  {
    match Find(Models, key)
    case None => None
    case Some(i) => Some(Models[i].model)
  }

  /** The display name of a key: the Llama key has its own, every other key is shown as Mixtral. */
  function DisplayName(key: string): string {
    if key == "llama-3-70b" then "Llama 3 70B" else "Mixtral 8x7B"
  }

  /** The `/api/models` listing: one entry per registry row, in registry order. */
  function ListModels(): (r: seq<ModelInfo>)
    ensures |r| == |Models|
    ensures forall i :: 0 <= i < |r| ==> r[i].id == Models[i].key && r[i].model == Models[i].model
    ensures forall i :: 0 <= i < |r| ==> r[i].name == DisplayName(Models[i].key)
  {
    seq(|Models|, i requires 0 <= i < |Models| => ModelInfo(Models[i].key, DisplayName(Models[i].key), Models[i].model))
  }

  lemma ModelsHaveDistinctKeys()
    ensures DistinctKeys(Models)
  {
  }

  /**
   * The listing and the lookup agree: a key is listed exactly when it resolves,
   * and every listed entry carries the identifier the key resolves to.
   */
  lemma {:induction false} ListingMatchesLookup(key: string)
    ensures Lookup(key).Some? <==> exists i :: 0 <= i < |ListModels()| && ListModels()[i].id == key
    ensures forall d :: d in ListModels() ==> Lookup(d.id) == Some(d.model)
  {
    var listing := ListModels();
    forall d | d in listing
      ensures Lookup(d.id) == Some(d.model)
    {
      var i :| 0 <= i < |listing| && listing[i] == d;
      var found := Find(Models, d.id);
      assert found.Some? && found.value <= i;
      ModelsHaveDistinctKeys();
    }
  }

  /** The listing shows the two registry rows with their display names. */
  lemma ListingNames()
    ensures [ListModels()[0].name, ListModels()[1].name] == ["Llama 3 70B", "Mixtral 8x7B"]
  {
  }

  /**
   * Property names every plain JavaScript object inherits from
   * `Object.prototype`; looking one of them up on the registry object yields a
   * truthy value even though it is not a registry key.
   */
  const InheritedNames: set<string> := {
    "constructor", "toString", "toLocaleString", "valueOf", "hasOwnProperty",
    "isPrototypeOf", "propertyIsEnumerable", "__proto__", "__defineGetter__",
    "__defineSetter__", "__lookupGetter__", "__lookupSetter__"
  }

  /** The model check as written: the key passes when indexing the registry object gives a truthy value. */
  function PassesModelCheckAsWritten(key: string): (r: bool)
    ensures Lookup(key).Some? ==> r
    ensures r ==> Lookup(key).Some? || key in InheritedNames
    ensures r && Lookup(key).None? <==> key in InheritedNames
  {
    assert key in InheritedNames ==> Find(Models, key).None?;
    Lookup(key).Some? || key in InheritedNames
  }

  /** A key that is not in the registry passes the model check as written. */
  lemma InheritedNamePassesModelCheck()
    ensures PassesModelCheckAsWritten("constructor") && Lookup("constructor").None?
  {
  }
}
