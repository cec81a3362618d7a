/**
 * `fetchDashboardStats()` of `dashboard/queries.ts`: three counting requests whose errors are not
 * checked. A failed response has neither rows nor count, and `count || 0` and
 * `data?.filter(...).length || 0` turn that into zero.
 */
module DashboardQueries {
  import opened Wrappers
  import opened Seqs
  import opened Records
  import opened Tables
  import opened AssetQueries

  /** The five numbers the dashboard shows. */
  datatype Stats = Stats(
    totalCustomers: nat, totalBuildings: nat, totalAssets: nat, activeAssets: nat, maintenanceAssets: nat)

  /** A counted response as the dashboard reads it: the count, or zero when the request failed. */
  function CountOrZero<T>(o: StoreOutcome, rows: seq<T>): (n: nat)
    ensures o.Ok? ==> n == |rows|
    ensures o.Err? ==> n == 0
  {
    if o.Ok? then |rows| else 0
  }

  /** The three responses, each with its own outcome; nothing is thrown. */
  function FetchDashboardStats(db: Db, customers: StoreOutcome, buildings: StoreOutcome, assets: StoreOutcome): (s: Stats)
  {
    Stats(
      CountOrZero(customers, db.customers),
      CountOrZero(buildings, db.buildings),
      CountOrZero(assets, db.assets),
      CountOrZero(assets, WithStatus(db.assets, "Active")),
      CountOrZero(assets, WithStatus(db.assets, "Maintenance")))
  }

  /** The rows whose status is neither `Active` nor `Maintenance`: the dashboard's "Inactive" slice. */
  function OtherStatus(rows: seq<Asset>): (r: seq<Asset>)
    ensures forall a :: a in r <==> a in rows && a.status != "Active" && a.status != "Maintenance"
  {
    Filter(rows, (a: Asset) => a.status != "Active" && a.status != "Maintenance")
  }

  /** Every row has exactly one of the three statuses the dashboard distinguishes. */
  lemma {:induction false} StatusSplit(rows: seq<Asset>)
    ensures |WithStatus(rows, "Active")| + |WithStatus(rows, "Maintenance")| + |OtherStatus(rows)| == |rows|
  {
    if rows != [] {
      StatusSplit(rows[1..]);
    }
  }

  /**
   * Whatever the three requests do, active and maintenance assets never exceed the total, so the
   * "Inactive" slice `totalAssets - activeAssets - maintenanceAssets` is never negative; on a
   * successful asset request it counts exactly the rows with any other status.
   */
  lemma DistributionAddsUp(db: Db, oc: StoreOutcome, ob: StoreOutcome, oa: StoreOutcome)
    ensures var s := FetchDashboardStats(db, oc, ob, oa);
      && s.activeAssets + s.maintenanceAssets <= s.totalAssets
      && (oa.Ok? ==> s.totalAssets - s.activeAssets - s.maintenanceAssets == |OtherStatus(db.assets)|)
  {
    StatusSplit(db.assets);
  }

  /**
   * A failed request is indistinguishable from an empty table: the dashboard shows a failed asset
   * request as zero assets rather than as an error.
   */
  lemma ErrorsReadAsEmpty(db: Db, oc: StoreOutcome, ob: StoreOutcome, e: StoreError)
    ensures FetchDashboardStats(db, oc, ob, Err(e)) == FetchDashboardStats(db.(assets := []), oc, ob, Ok)
    ensures FetchDashboardStats(db, Err(e), ob, Ok).totalCustomers == 0
    ensures FetchDashboardStats(db, oc, Err(e), Ok).totalBuildings == 0
  {
    assert WithStatus([], "Active") == [] && WithStatus([], "Maintenance") == [];
  }
}
