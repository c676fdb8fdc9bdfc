/** The store the dashboard view test reads at each of its assertions about
    the helper, built in the order the test changes the selections: a CSV
    variable (values c1, c2, c3), a query variable and a map variable (k1 to
    v1, k2 to v2). How the UI writes a selection into the store is not part
    of this model; each step records the chosen value as an override in the
    dashboard's own context layer. */
module DashboardScenario {
  import opened Wrappers
  import opened VariablesState
  import opened DashboardsView

  const Dashboard: string := "dashboard"

  const Csv: Variable := Variable(Some(ListArgs(["c1", "c2", "c3"])), None)
  /** Stands in for the query variable: the helper, which the test never asks
      about this one, finds no `values[0]` in it, as in an empty list. */
  const Query: Variable := Variable(Some(ListArgs([])), None)
  const MapVar: Variable := Variable(Some(MapArgs([("k1", "v1"), ("k2", "v2")])), None)

  /** The store before any selection is made. */
  const Fresh: Variables :=
    Variables(["csv", "query", "map"], map["csv" := Csv, "query" := Query, "map" := MapVar], map[])

  /** The store after `value` was chosen for variable `id` in the dashboard context. */
  function Select(s: Variables, id: string, value: string): (t: Variables)
    ensures t.allIDs == s.allIDs && t.byID == s.byID
    ensures Dashboard in t.values && id in t.values[Dashboard].values
    ensures t.values[Dashboard].values[id] == Variable(None, Some([value]))
  {
    var layer := if Dashboard in s.values then s.values[Dashboard].values else map[];
    s.(values := s.values[Dashboard := ContextValues(layer[id := Variable(None, Some([value]))])])
  }

  /** The stores in the test's order: `c3` chosen, then `c2`, then `c1` saved
      from the cell editor, then `k2`, then `k1` saved from the cell editor. */
  const AfterC3: Variables := Select(Fresh, "csv", "c3")
  const AfterC2: Variables := Select(AfterC3, "csv", "c2")
  const AfterC1: Variables := Select(AfterC2, "csv", "c1")
  const AfterK2: Variables := Select(AfterC1, "map", "k2")
  const AfterK1: Variables := Select(AfterK2, "map", "k1")

  /** The values the test asserts, each against the store of its step. */
  lemma PointingAndClicking()
    ensures GetSelectedVariable(Fresh, Dashboard, 0) == Returns(Some("c1"))
    ensures GetSelectedVariable(AfterC3, Dashboard, 0) == Returns(Some("c3"))
    ensures GetSelectedVariable(AfterC2, Dashboard, 0) == Returns(Some("c2"))
    ensures GetSelectedVariable(AfterC1, Dashboard, 0) == Returns(Some("c1"))
    ensures GetSelectedVariable(AfterC1, Dashboard, 2) == Returns(Some("v1"))
    ensures GetSelectedVariable(AfterK2, Dashboard, 2) == Returns(Some("v2"))
    ensures GetSelectedVariable(AfterK1, Dashboard, 2) == Returns(Some("v1"))
    ensures GetSelectedVariable(AfterK1, Dashboard, 0) == Returns(Some("c1"))
    ensures GetSelectedVariable(Fresh, Dashboard, 3) == ThrowsTypeError
  {
  }
}
