/** The expand/collapse flags of the issue tree: `expandedIssues`, an object
    from issue id to boolean (static/hello-world/src/IssuesList.js:31, :246-251,
    :269 and App.js:22, :105-110, :128). */
module Expansion {

  /** `expandedIssues[id] || false`: an id that was never toggled is collapsed. */
  predicate IsExpanded(m: map<string, bool>, id: string) {
    id in m && m[id]
  }

  /** `toggleExpand(id)`: `{ ...prev, [id]: !prev[id] }`. */
  function Toggle(m: map<string, bool>, id: string): (r: map<string, bool>)
    ensures IsExpanded(r, id) == !IsExpanded(m, id)
    ensures r.Keys == m.Keys + {id}
    ensures forall other :: other in m && other != id ==> r[other] == m[other]
  {
    m[id := !IsExpanded(m, id)]
  }

  /** Toggling an id twice shows the tree as it was. */
  lemma ToggleTwice(m: map<string, bool>, id: string, x: string)
    ensures IsExpanded(Toggle(Toggle(m, id), id), x) == IsExpanded(m, x)
  {
  }
}
