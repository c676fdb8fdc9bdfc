/** A plain JavaScript object whose own properties hold strings, such as the
    key/value table of a map variable. Its own properties are listed in the
    order `Object.keys` reports them. */
module JsObject {
  import opened Wrappers

  /** The own properties of an object, in `Object.keys` order. */
  type Entries = seq<(string, string)>

  /** The name JavaScript uses when a property is looked up with the key `undefined`. */
  const UndefinedName: string := "undefined"

  /** The property name a lookup `o[k]` uses: `undefined` is converted to the string "undefined". */
  function PropertyName(k: Option<string>): string
  {
    if k.Some? then k.value else UndefinedName
  }

  /** A JavaScript object never holds two own properties of the same name. */
  predicate DistinctKeys(o: Entries)
  {
    forall i, j :: 0 <= i < j < |o| ==> o[i].0 != o[j].0
  }

  /** A JavaScript object: own properties in order, no name repeated. */
  type Object = o: Entries | DistinctKeys(o) witness []

  /** `Object.keys(o)`: the property names, in order. */
  function Keys(o: Entries): (ks: seq<string>)
    ensures |ks| == |o|
    ensures forall i :: 0 <= i < |o| ==> ks[i] == o[i].0
  {
    if o == [] then [] else [o[0].0] + Keys(o[1..])
  }

  /** `o[name]`: the value of the own property `name`, or `undefined` when there is none. */
  function Get(o: Entries, name: string): (r: Option<string>)
    ensures r.Some? ==> exists i :: 0 <= i < |o| && o[i] == (name, r.value)
    ensures r.None? <==> forall i :: 0 <= i < |o| ==> o[i].0 != name
  {
    if o == [] then None
    else if o[0].0 == name then Some(o[0].1)
    else Get(o[1..], name)
  }

  /** In an object, every own property's name looks up that property's own value. */
  lemma GetAt(o: Object, i: nat)
    requires i < |o|
    ensures Get(o, o[i].0) == Some(o[i].1)
  {
  }

  /** A lookup finds a value exactly when the name is one of `Object.keys(o)`. */
  lemma GetDefinedIffKey(o: Entries, name: string)
    ensures Get(o, name).Some? <==> name in Keys(o)
  {
  }
}
