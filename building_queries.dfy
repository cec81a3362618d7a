/** The read requests of `buildings/queries.ts`. */
module BuildingQueries {
  import opened Wrappers
  import opened Seqs
  import opened Records
  import opened Tables

  /** The buildings a customer owns, newest first. */
  function BuildingsOf(db: Db, customerId: Id): (r: seq<Building>)
    ensures SortedDesc(r, BuildingCreatedAt)
    ensures forall b :: b in r <==> b in db.buildings && b.customerId == customerId
    ensures multiset(r) <= multiset(db.buildings)
  {
    SortDesc(Filter(db.buildings, (b: Building) => b.customerId == customerId), BuildingCreatedAt)
  }

  /** Every building, newest first. */
  function AllBuildings(db: Db): (r: seq<Building>)
    ensures SortedDesc(r, BuildingCreatedAt)
    ensures multiset(r) == multiset(db.buildings)
  {
    SortDesc(db.buildings, BuildingCreatedAt)
  }

  /** `fetchBuildings(customerId)`. */
  function FetchBuildings(db: Db, customerId: Id, o: StoreOutcome): (r: Result<seq<Building>, StoreError>)
    ensures o.Ok? <==> r.Success?
    ensures r.Success? ==> r.value == BuildingsOf(db, customerId)
  {
    if o.Err? then Failure(o.error) else Success(BuildingsOf(db, customerId))
  }

  /** `fetchAllBuildings()`. */
  function FetchAllBuildings(db: Db, o: StoreOutcome): (r: Result<seq<Building>, StoreError>)
    ensures o.Ok? <==> r.Success?
    ensures r.Success? ==> r.value == AllBuildings(db)
  {
    if o.Err? then Failure(o.error) else Success(AllBuildings(db))
  }

  /**
   * The per-customer lists partition the overview: a building appears in the list of its own
   * customer and of no other, and every row of a list is in the overview.
   */
  lemma BuildingListsPartition(db: Db, b: Building, c: Id)
    ensures b in BuildingsOf(db, c) ==> b in AllBuildings(db)
    ensures b in AllBuildings(db) ==> (b in BuildingsOf(db, c) <==> b.customerId == c)
  {
    assert b in AllBuildings(db) <==> b in multiset(db.buildings);
  }

  /** A customer's list holds as many rows as the table has buildings naming that customer. */
  lemma BuildingsOfCount(db: Db, customerId: Id)
    ensures |BuildingsOf(db, customerId)| == |Filter(db.buildings, (b: Building) => b.customerId == customerId)|
  {
    var f := Filter(db.buildings, (b: Building) => b.customerId == customerId);
    assert |multiset(SortDesc(f, BuildingCreatedAt))| == |multiset(f)|;
  }
}
