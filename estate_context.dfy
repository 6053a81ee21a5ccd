/**
 * The estate context: the provider hands every page the object
 * `{ selectedEstate, switchEstate }`, and a page reads the selected estate's id
 * out of it to seed its estate field or its estate selection. Most pages
 * destructure the object; the tracker and the sale page bind it whole, so
 * what they call `selectedEstate` is the context object itself.
 */
module EstateContext {

  /** The JavaScript values that reach a page through the context. */
  datatype JsValue = Undefined | Null | Str(text: string) | Obj(props: map<string, JsValue>) | Callback

  /** `v?.[key]`: the property when `v` is an object that has it, undefined otherwise. */
  function Get(v: JsValue, key: string): JsValue {
    if v.Obj? && key in v.props then v.props[key] else Undefined
  }

  /** JavaScript truthiness of the values above. */
  predicate Truthy(v: JsValue) {
    match v
    case Undefined => false
    case Null => false
    case Str(t) => t != ""
    case _ => true
  }

  /** An estate record as the server sends it. */
  function EstateObject(id: string, name: string): JsValue {
    Obj(map["_id" := Str(id), "name" := Str(name)])
  }

  /** The provider's value: the stored estate (null when none) and the switch callback. */
  function Provided(selected: JsValue): JsValue {
    Obj(map["selectedEstate" := selected, "switchEstate" := Callback])
  }

  /** `const { selectedEstate } = useEstate()`: the estate out of the context object. */
  function Destructured(context: JsValue): JsValue {
    Get(context, "selectedEstate")
  }

  /**
   * `useState(selectedEstate?._id || '')` on a page whose `selectedEstate` is
   * `bound`: the estate's id, or "" when it has none.
   */
  function InitialTarget(bound: JsValue): (id: string)
    ensures id != "" ==> Get(bound, "_id") == Str(id)
    ensures Get(bound, "_id").Str? ==> id == Get(bound, "_id").text
    ensures !Truthy(Get(bound, "_id")) ==> id == ""
  {
    match Get(bound, "_id")
    case Str(t) => t
    case _ => ""
  }

  /**
   * The first-load effect `if (selectedEstate) setSelectedEstateIds([selectedEstate._id])`
   * on a page whose `selectedEstate` is `bound`: a one-id selection when it is
   * truthy, the current selection otherwise.
   */
  function SeedSelection(bound: JsValue, current: seq<JsValue>): seq<JsValue> {
    if Truthy(bound) then [Get(bound, "_id")] else current
  }

  // ---------------------------------------------------------------------------
  // As written: the sale page and the tracker bind the whole context object
  // ---------------------------------------------------------------------------

  /**
   * The sale page, binding the whole context, opens with no estate chosen even
   * when the user has selected one: the context object has no `_id`.
   */
  lemma WholeContextLosesEstate(id: string, name: string)
    requires id != ""
    ensures InitialTarget(Provided(EstateObject(id, name))) == ""
    ensures InitialTarget(Destructured(Provided(EstateObject(id, name)))) == id
  {
    assert Get(Provided(EstateObject(id, name)), "_id") == Undefined;
    assert Destructured(Provided(EstateObject(id, name))) == EstateObject(id, name);
  }

  /**
   * The tracker, binding the whole context, always seeds its selection with one
   * undefined id, whatever estate is stored, since the context object is truthy.
   */
  lemma WholeContextSeedsUndefined(selected: JsValue, current: seq<JsValue>)
    ensures SeedSelection(Provided(selected), current) == [Undefined]
  {
    assert Truthy(Provided(selected));
    assert Get(Provided(selected), "_id") == Undefined;
  }

  // ---------------------------------------------------------------------------
  // As intended: the destructured binding the other pages use
  // ---------------------------------------------------------------------------

  /** Destructured, the estate field opens on the stored estate's id, and on "" when none is stored. */
  lemma DestructuredOpensOnSelectedEstate(id: string, name: string)
    ensures InitialTarget(Destructured(Provided(EstateObject(id, name)))) == id
    ensures InitialTarget(Destructured(Provided(Null))) == ""
  {
    assert Destructured(Provided(EstateObject(id, name))) == EstateObject(id, name);
    assert Destructured(Provided(Null)) == Null;
  }

  /** Destructured, the selection is seeded with the stored estate's id, and left alone when none is stored. */
  lemma DestructuredSeedsSelectedId(id: string, name: string, current: seq<JsValue>)
    ensures SeedSelection(Destructured(Provided(EstateObject(id, name))), current) == [Str(id)]
    ensures SeedSelection(Destructured(Provided(Null)), current) == current
  {
    assert Destructured(Provided(EstateObject(id, name))) == EstateObject(id, name);
    assert Destructured(Provided(Null)) == Null;
  }
}
