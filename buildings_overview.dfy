/** The overview of every building, read under the unscoped `["buildings"]` key. */
module BuildingsOverviewView {
  import opened Wrappers
  import opened Records
  import opened Tables
  import opened BuildingQueries

  /** `!data || data.length === 0`: the empty state. */
  predicate ShowsEmpty(data: Option<seq<Building>>) {
    data.None? || |data.value| == 0
  }

  /**
   * With the read loaded, the page shows the empty state exactly when the store holds no building,
   * and otherwise one card per building row.
   */
  lemma EmptyIffNoBuildings(db: Db)
    ensures var rows := FetchAllBuildings(db, Ok).value;
      (ShowsEmpty(Some(rows)) <==> db.buildings == []) && |rows| == |db.buildings|
  {
    var rows := FetchAllBuildings(db, Ok).value;
    assert |rows| == |multiset(rows)| == |multiset(db.buildings)| == |db.buildings|;
  }
}
