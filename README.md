# Dashboard variable selection, modelled in Dafny

This project models `getSelectedVariable`, the helper the dashboard view
end-to-end test uses to read a dashboard variable's effective selected value
out of the UI store. Given a context id (the dashboard's own id, or a cell
editor's) and a position in the variable order, the helper:

1. finds the variable id at that position in `allIDs`;
2. hydrates the variable: it spreads the context's override record
   (`values[contextID].values[id]`) over the default record (`byID[id]`),
   shallowly, so each property present in the override wins;
3. fills a missing selection on that local copy: the first key of the
   table for a map variable, the first value for any other kind;
4. returns the table value of the selected key for a map variable, or the
   first selected value otherwise.

The model is pure, as the helper is:

- `wrappers.dfy` holds `Option`. `None` stands for `undefined`.
- `js_object.dfy` models a JavaScript object with string properties.
  It is an ordered list of own properties with no name repeated (the
  subset type `Object`), with `Object.keys` (`Keys`) and property lookup
  (`Get`). It also covers JavaScript's conversion of an
  `undefined` property name to the string "undefined".
- `dashboards_view.dfy` holds the store's variables slice
  (`VariablesState`) and the helper with its properties (`DashboardsView`).
  The helper's two outcomes are a returned value or the `TypeError` thrown
  when the hydrated record has no `arguments`.
- `scenario.dfy` builds, in the order the test makes its selections, the
  store under each of the test's assertions about the helper. Each chosen
  value is recorded as an override in the dashboard's context layer. How the
  UI writes a selection is not part of this model.

The helper only reads the store. The one assignment it makes fills
`selected` on the freshly built hydrated copy. In the model this is a
`match` inside `SelectedHead`, and the store is an immutable input.

## Model

| member | source | states |
|---|---|---|
| `DashboardsView.GetSelectedVariable` | ui/cypress/e2e/dashboardsView.test.ts:108-138 | The helper throws exactly when neither the default record nor the context's override has `arguments`. Any value it returns is held by the hydrated record: a table value for a map variable, or one of the values or selections for any other kind. |
| `DashboardsView.Hydrate` | ui/cypress/e2e/dashboardsView.test.ts:113-121 | Property by property, the hydrated record takes the override's `arguments` and `selected` when the override has them, and the default record's otherwise. |
| `DashboardsView.SpreadLaws` | ui/cypress/e2e/dashboardsView.test.ts:118-121 | The spread is shallow overriding. An empty override keeps the default, and an empty default gives the override. Two further clauses are algebra about the spread alone, since the helper spreads once: re-applying the same override changes nothing, and spreads compose associatively. |
| `DashboardsView.NoOverrideUsesDefault` | ui/cypress/e2e/dashboardsView.test.ts:113-116 | With no layer for the context, or no entry for the variable in it, the result is what the default record alone gives. That is the same result as a store with no context layers. |
| `DashboardsView.FullOverrideHidesDefault` | ui/cypress/e2e/dashboardsView.test.ts:118-121 | An override that has both `arguments` and `selected` fully decides the result. |
| `DashboardsView.DefaultListSelection` | ui/cypress/e2e/dashboardsView.test.ts:133-137 | With no selection in either layer, a non-map variable yields the first of its values. It yields `undefined` when it has no values. |
| `DashboardsView.ExplicitListSelection` | ui/cypress/e2e/dashboardsView.test.ts:137 | With a non-empty selection, a non-map variable yields the first selected value, whatever its values are and in whatever order. |
| `DashboardsView.DefaultMapSelection` | ui/cypress/e2e/dashboardsView.test.ts:123-130 | With no selection in either layer, a map variable yields the value of its first key in `Object.keys` order. An empty table yields `undefined`. |
| `DashboardsView.ExplicitMapSelection` | ui/cypress/e2e/dashboardsView.test.ts:130 | With selected key `k`, a map variable yields the table's value for `k`, which is the value and not the key. It yields `undefined` when `k` is not a key. |
| `DashboardsView.EmptySelection` | ui/cypress/e2e/dashboardsView.test.ts:123-137 | A present but empty selection is truthy and is not replaced by the default. A non-map variable then yields `undefined`, and a map variable looks up the property "undefined". |
| `DashboardsView.OutOfRangeIndex` | ui/cypress/e2e/dashboardsView.test.ts:110-124 | An index outside `allIDs` gives the id `undefined`. When neither layer has an entry named "undefined", both lookups fall back to `{}` and the helper throws. |
| `JsObject.Keys` | ui/cypress/e2e/dashboardsView.test.ts:126 | `Object.keys` lists every own property name: one per property, in property order. |
| `JsObject.Get` | ui/cypress/e2e/dashboardsView.test.ts:130 | A lookup returns the value of an own property with that name. It returns `undefined` exactly when no own property has that name. |
| `JsObject.GetAt` | ui/cypress/e2e/dashboardsView.test.ts:130 | In an object (which never repeats a property name), each property's name looks up that property's own value. |
| `JsObject.GetDefinedIffKey` | ui/cypress/e2e/dashboardsView.test.ts:126-130 | A lookup finds a value exactly when the name is among `Object.keys`. |
| `DashboardScenario.PointingAndClicking` | ui/cypress/e2e/dashboardsView.test.ts:178-312 | The stores are built in the test's order: `c3` chosen, then `c2`, then `c1`, then `k2`, then `k1`. Each store yields the value the test asserts at that step: `c1` by default, then `c3`, `c2` and `c1`; `v1` for the default key `k1`, then `v2` for `k2`, then `v1` again. An index past the last variable throws. |

## Left out

- The browser steps of every test case: page visits, clicks, DOM assertions and the fixtures that create dashboards, variables and data. They drive a browser and hold no logic of their own.
- Behaviour the tests assert but this file does not implement: the URL query-string sync, the "Loading" cascade of dependent query variables, and the deduplication of query executions. Their implementation is not part of this model.
- Reading the store through `win.store.getState()` and the curried `win =>` wrapper. The store's variables slice is a plain input.
- An omitted `index` behaves as an index outside `allIDs` (`arr[undefined]` is `undefined`), so it is covered by any out-of-range `int`. Non-integer indexes are not modelled.
- A property that is present but holds `undefined` or `null` is modelled as absent. JavaScript's spread would copy such a property over the default.
- Properties inherited from `Object.prototype` (a key such as "toString") are not modelled. Only own properties are looked up.
- The `arguments` of non-map kinds are modelled as an ordered array of values. A kind whose `values` is not an array is not modelled, because the store's type definitions are not part of this model.
- Test data setup (`Date.now()` timestamps, line-protocol points) is clock and I/O.
