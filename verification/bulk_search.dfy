/** The search panel that the team-members and team-roles pages share: a set
    of selected keys, the panel's visibility, the query and its hits, and the
    resets their bulk add and remove handlers perform. */
module BulkSearch {

  /** The parts of the page the bulk handlers reset; `T` is the hit type. */
  datatype SearchPanel<T> = SearchPanel(selected: set<string>, showSearch: bool, query: string, results: seq<T>)

  /** The panel with the search closed and nothing typed, found or selected. */
  function ClosedPanel<T>(): SearchPanel<T> {
    SearchPanel({}, false, "", [])
  }

  /** After a bulk remove settles: success clears the selection and leaves
      the search as it was; a failure keeps everything. */
  function AfterRemove<T>(p: SearchPanel<T>, succeeded: bool): (r: SearchPanel<T>)
    ensures succeeded ==> r.selected == {}
    ensures r.showSearch == p.showSearch && r.query == p.query && r.results == p.results
    ensures !succeeded ==> r == p
  {
    if succeeded then p.(selected := {}) else p
  }

  /** After a bulk add settles: success closes and empties the search and
      clears the selection; a failure keeps everything. */
  function AfterAdd<T>(p: SearchPanel<T>, succeeded: bool): (r: SearchPanel<T>)
    ensures succeeded ==> !r.showSearch && r.query == "" && r.results == [] && r.selected == {}
    ensures !succeeded ==> r == p
  {
    if succeeded then ClosedPanel() else p
  }

  /** A successful add leaves a panel that no later reset changes: the
      closed panel is a fixed point of both handlers. */
  lemma ClosedPanelIsStable<T>(p: SearchPanel<T>, addOk: bool, removeOk: bool)
    ensures var q := AfterAdd(p, true);
      AfterRemove(q, removeOk) == q && AfterAdd(q, addOk) == q
  {
  }
}
