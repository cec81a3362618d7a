/** The read requests of `assets/queries.ts`. */
module AssetQueries {
  import opened Wrappers
  import opened Seqs
  import opened Text
  import opened Records
  import opened Tables

  /** The assets of a building, newest first. */
  function AssetsOf(db: Db, buildingId: Id): (r: seq<Asset>)
    ensures SortedDesc(r, AssetCreatedAt)
    ensures forall a :: a in r <==> a in db.assets && a.buildingId == buildingId
    ensures multiset(r) <= multiset(db.assets)
  {
    SortDesc(Filter(db.assets, (a: Asset) => a.buildingId == buildingId), AssetCreatedAt)
  }

  /** `fetchAssets(buildingId)`. */
  function FetchAssets(db: Db, buildingId: Id, o: StoreOutcome): (r: Result<seq<Asset>, StoreError>)
    ensures o.Ok? <==> r.Success?
    ensures r.Success? ==> r.value == AssetsOf(db, buildingId)
  {
    if o.Err? then Failure(o.error) else Success(AssetsOf(db, buildingId))
  }

  /** The rows whose id is `id`. */
  function AssetsWithId(db: Db, id: Id): (r: seq<Asset>)
    ensures forall a :: a in r <==> a in db.assets && a.id == id
  {
    Filter(db.assets, (a: Asset) => a.id == id)
  }

  /** `fetchAssetById(assetId)`: `.single()` over the rows with that id. */
  function FetchAssetById(db: Db, id: Id, o: StoreOutcome): (r: Result<Asset, StoreError>)
    ensures o.Err? ==> r == Failure(o.error)
  {
    if o.Err? then Failure(o.error) else Single(AssetsWithId(db, id))
  }

  /** With distinct primary keys the lookup succeeds exactly for an existing id, and returns that asset. */
  lemma FetchAssetByIdFinds(db: Db, id: Id, o: StoreOutcome)
    requires UniqueKeys(db)
    ensures var r := FetchAssetById(db, id, o);
      && (r.Success? <==> o.Ok? && id in AssetIdsOf(db))
      && (r.Success? ==> r.value in db.assets && r.value.id == id)
      && (o.Ok? && id !in AssetIdsOf(db) ==> r == Failure(NotSingleRow(0)))
  {
    var rows := AssetsWithId(db, id);
    FilterDistinct(db.assets, (a: Asset) => a.id == id, AssetKey);
    SameKeyAtMostOne(rows, AssetKey, id);
    if id in AssetIdsOf(db) {
      var a :| a in db.assets && a.id == id;
      assert a in rows;
    } else {
      EmptyIffNoMember(rows);
    }
  }

  /** The rows whose status column is `status` (`.eq("status", status)`). */
  function WithStatus(rows: seq<Asset>, status: string): (r: seq<Asset>)
    ensures forall a :: a in r <==> a in rows && a.status == status
  {
    Filter(rows, (a: Asset) => a.status == status)
  }

  /**
   * `fetchAllAssets(status?)`: a truthy status filters on the column; an absent or empty one
   * returns every row. No order is requested and the database promises none; the model returns the
   * rows in their stored order.
   */
  function FetchAllAssets(db: Db, status: Option<string>, o: StoreOutcome): (r: Result<seq<Asset>, StoreError>)
    ensures o.Ok? <==> r.Success?
  {
    if o.Err? then Failure(o.error)
    else if status.Some? && Truthy(status.value) then Success(WithStatus(db.assets, status.value))
    else Success(db.assets)
  }

  /**
   * The overview lists exactly the assets with the requested status, or every asset when the
   * status is absent or empty; either way only rows of the table, each as often as it is stored.
   */
  lemma FetchAllAssetsLists(db: Db, status: Option<string>)
    ensures var rows := FetchAllAssets(db, status, Ok).value;
      && multiset(rows) <= multiset(db.assets)
      && (status.None? || status == Some("") ==> rows == db.assets)
      && (status.Some? && status.value != "" ==> forall a :: a in rows <==> a in db.assets && a.status == status.value)
  {
  }
}
