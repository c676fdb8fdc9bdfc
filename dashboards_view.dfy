/** The variables slice of the UI store, as the dashboard view test reads it
    through `state.resources.variables`. */
module VariablesState {
  import opened Wrappers
  import opened JsObject

  /** The `arguments` of a variable: a map variable's key/value object
      (`type === 'map'`), or the ordered value list of any other kind. */
  datatype Args = ListArgs(values: seq<string>) | MapArgs(table: Object)

  /** A variable record. Each field is `None` when the record has no such
      property; these are the two properties the helper reads. */
  datatype Variable = Variable(arguments: Option<Args>, selected: Option<seq<string>>)

  /** The empty object `{}` the helper falls back to when a lookup misses. */
  const NoFields: Variable := Variable(None, None)

  /** The per-context layer `values[contextID]`, whose `values` maps a variable id to its override. */
  datatype ContextValues = ContextValues(values: map<string, Variable>)

  /** `allIDs` orders the variables, `byID` holds their default records and
      `values` holds each context's overrides. */
  datatype Variables = Variables(
    allIDs: seq<string>,
    byID: map<string, Variable>,
    values: map<string, ContextValues>)
}

/** The dashboard view test's `getSelectedVariable`: the effective selected
    value of the variable at position `index`, as seen in context `contextID`. */
module DashboardsView {
  import opened Wrappers
  import opened JsObject
  import opened VariablesState

  /** What the helper does: return a value (`None` is `undefined`) or throw a
      `TypeError` because the merged record has no `arguments`. */
  datatype Outcome = Returns(value: Option<string>) | ThrowsTypeError

  /** `defaultVarOrder[index]`: `undefined` outside the array. */
  function VariableID(allIDs: seq<string>, index: int): Option<string>
  {
    if 0 <= index < |allIDs| then Some(allIDs[index]) else None
  }

  /** `byID[defaultVarOrder[index]] || {}`. */
  function DefaultRecord(s: Variables, index: int): Variable
  {
    var name := PropertyName(VariableID(s.allIDs, index));
    if name in s.byID then s.byID[name] else NoFields
  }

  /** `(values[contextID] || {values: {}}).values[defaultVarOrder[index]] || {}`. */
  function OverrideRecord(s: Variables, contextID: string, index: int): Variable
  {
    var layer := if contextID in s.values then s.values[contextID] else ContextValues(map[]);
    var name := PropertyName(VariableID(s.allIDs, index));
    if name in layer.values then layer.values[name] else NoFields
  }

  /** One property of `{...base, ...over}`: the later object's property wins when it has one. */
  function Later<T>(base: Option<T>, over: Option<T>): Option<T>
  {
    if over.Some? then over else base
  }

  /** The shallow object spread `{...base, ...over}`, on the properties the helper reads. */
  function Spread(base: Variable, over: Variable): Variable
  {
    Variable(Later(base.arguments, over.arguments), Later(base.selected, over.selected))
  }

  /** The hydrated record: the default record with the context's override spread over it. */
  function Hydrate(s: Variables, contextID: string, index: int): (h: Variable)
    ensures OverrideRecord(s, contextID, index).arguments.Some? ==>
              h.arguments == OverrideRecord(s, contextID, index).arguments
    ensures OverrideRecord(s, contextID, index).arguments.None? ==>
              h.arguments == DefaultRecord(s, index).arguments
    ensures OverrideRecord(s, contextID, index).selected.Some? ==>
              h.selected == OverrideRecord(s, contextID, index).selected
    ensures OverrideRecord(s, contextID, index).selected.None? ==>
              h.selected == DefaultRecord(s, index).selected
  {
    Spread(DefaultRecord(s, index), OverrideRecord(s, contextID, index))
  }

  /** `arr[0]`: `undefined` on an empty array. */
  function First(xs: seq<string>): Option<string>
  {
    if |xs| > 0 then Some(xs[0]) else None
  }

  /** `hydrated.selected[0]` once a missing selection has been filled: the
      first key of the table for a map variable, the first value otherwise.
      A present selection, even an empty one, is truthy and kept. */
  function SelectedHead(h: Variable, a: Args): Option<string>
  {
    match h.selected
    case Some(sel) => First(sel)
    case None =>
      match a
      case MapArgs(table) => First(Keys(table))
      case ListArgs(vs) => First(vs)
  }

  /** What the helper returns for a hydrated record: the table value of the
      selected key for a map variable, the selected value otherwise. */
  function Read(h: Variable): Outcome
  {
    match h.arguments
    case None => ThrowsTypeError
    case Some(a) =>
      var head := SelectedHead(h, a);
      match a
      case MapArgs(table) => Returns(Get(table, PropertyName(head)))
      case ListArgs(_) => Returns(head)
  }

  /** `v` is data the record itself holds: a value of its table for a map
      variable, one of its values or of its selection otherwise. */
  ghost predicate HeldBy(h: Variable, v: string)
  {
    match h.arguments
    case None => false
    case Some(MapArgs(table)) => exists i :: 0 <= i < |table| && table[i].1 == v
    case Some(ListArgs(vs)) => v in vs || (h.selected.Some? && v in h.selected.value)
  }

  /** `getSelectedVariable(contextID, index)` applied to the store's variables.
      It throws exactly when neither layer has `arguments`, and whatever it
      returns comes from the hydrated record. */
  function GetSelectedVariable(s: Variables, contextID: string, index: int): (r: Outcome)
    ensures r.ThrowsTypeError? <==>
              DefaultRecord(s, index).arguments.None? && OverrideRecord(s, contextID, index).arguments.None?
    ensures r.Returns? && r.value.Some? ==> HeldBy(Hydrate(s, contextID, index), r.value.value)
  {
    Read(Hydrate(s, contextID, index))
  }

  /** With no selection in either layer, a list variable yields its first value
      (`undefined` when it has none). */
  lemma DefaultListSelection(s: Variables, contextID: string, index: int, vs: seq<string>)
    requires Hydrate(s, contextID, index).arguments == Some(ListArgs(vs))
    requires DefaultRecord(s, index).selected.None? && OverrideRecord(s, contextID, index).selected.None?
    ensures |vs| > 0 ==> GetSelectedVariable(s, contextID, index) == Returns(Some(vs[0]))
    ensures |vs| == 0 ==> GetSelectedVariable(s, contextID, index) == Returns(None)
  {
  }

  /** With an explicit selection, a list variable yields the first selected
      value, whatever its values and their order. */
  lemma ExplicitListSelection(s: Variables, contextID: string, index: int, vs: seq<string>, sel: seq<string>)
    requires Hydrate(s, contextID, index).arguments == Some(ListArgs(vs))
    requires Hydrate(s, contextID, index).selected == Some(sel)
    requires |sel| > 0
    ensures GetSelectedVariable(s, contextID, index) == Returns(Some(sel[0]))
  {
  }

  /** With no selection in either layer, a map variable yields the value of
      its first key in `Object.keys` order (`undefined` for an empty table
      that has no property named "undefined", which is every empty table). */
  lemma DefaultMapSelection(s: Variables, contextID: string, index: int, table: Object)
    requires Hydrate(s, contextID, index).arguments == Some(MapArgs(table))
    requires DefaultRecord(s, index).selected.None? && OverrideRecord(s, contextID, index).selected.None?
    ensures |table| > 0 ==> GetSelectedVariable(s, contextID, index) == Returns(Some(table[0].1))
    ensures |table| == 0 ==> GetSelectedVariable(s, contextID, index) == Returns(None)
  {
  }

  /** With selected key `k`, a map variable yields the table's value for `k`
      (the value, not the key), and `undefined` when `k` is not a key. */
  lemma ExplicitMapSelection(s: Variables, contextID: string, index: int, table: Object, sel: seq<string>)
    requires Hydrate(s, contextID, index).arguments == Some(MapArgs(table))
    requires Hydrate(s, contextID, index).selected == Some(sel)
    requires |sel| > 0
    ensures forall i :: 0 <= i < |table| && table[i].0 == sel[0] ==>
              GetSelectedVariable(s, contextID, index) == Returns(Some(table[i].1))
    ensures sel[0] !in Keys(table) ==> GetSelectedVariable(s, contextID, index) == Returns(None)
  {
  }

  /** A present but empty selection is truthy, so it is kept: a list variable
      yields `undefined`, and a map variable looks up the property "undefined". */
  lemma EmptySelection(s: Variables, contextID: string, index: int)
    requires Hydrate(s, contextID, index).arguments.Some?
    requires Hydrate(s, contextID, index).selected == Some([])
    ensures Hydrate(s, contextID, index).arguments.value.ListArgs? ==>
              GetSelectedVariable(s, contextID, index) == Returns(None)
    ensures Hydrate(s, contextID, index).arguments.value.MapArgs? ==>
              GetSelectedVariable(s, contextID, index) ==
                Returns(Get(Hydrate(s, contextID, index).arguments.value.table, UndefinedName))
  {
  }

  /** The override shadows the default property by property: with no
      override the default record is kept, and an empty default gives the
      override. The last two clauses are algebra about `Spread` alone (the
      helper spreads exactly once): overriding twice with the same record
      changes nothing, and spreads compose. */
  lemma SpreadLaws(a: Variable, b: Variable, c: Variable)
    ensures Spread(a, NoFields) == a
    ensures Spread(NoFields, a) == a
    ensures Spread(Spread(a, b), b) == Spread(a, b)
    ensures Spread(Spread(a, b), c) == Spread(a, Spread(b, c))
  {
  }

  /** When the context has no layer, or its layer no entry for the variable,
      the result is the one the default record alone gives: the same as in a
      store with no context layers at all. */
  lemma NoOverrideUsesDefault(s: Variables, contextID: string, index: int)
    requires contextID !in s.values ||
             PropertyName(VariableID(s.allIDs, index)) !in s.values[contextID].values
    ensures GetSelectedVariable(s, contextID, index) == Read(DefaultRecord(s, index))
    ensures GetSelectedVariable(s, contextID, index) == GetSelectedVariable(s.(values := map[]), contextID, index)
  {
  }

  /** An override that has both properties hides the default record entirely. */
  lemma FullOverrideHidesDefault(s: Variables, contextID: string, index: int)
    requires OverrideRecord(s, contextID, index).arguments.Some?
    requires OverrideRecord(s, contextID, index).selected.Some?
    ensures GetSelectedVariable(s, contextID, index) == Read(OverrideRecord(s, contextID, index))
  {
  }

  /** An index outside `allIDs` looks up the id `undefined`, that is the
      property "undefined"; when neither layer has such an entry the helper
      falls back to `{}` twice and throws. */
  lemma OutOfRangeIndex(s: Variables, contextID: string, index: int)
    requires !(0 <= index < |s.allIDs|)
    requires UndefinedName !in s.byID
    requires contextID !in s.values || UndefinedName !in s.values[contextID].values
    ensures GetSelectedVariable(s, contextID, index) == ThrowsTypeError
  {
  }
}
