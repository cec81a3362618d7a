/**
 * The service object of `services/api.ts`: statistics that fail as a whole, a text summary built
 * from them, and three list reads with optional filters.
 */
module Api {
  import opened Wrappers
  import opened Seqs
  import opened Text
  import opened Records
  import opened Tables
  import opened CustomerQueries
  import opened BuildingQueries
  import opened AssetQueries
  import opened DashboardQueries

  /** The five counting requests of `getStats`. */
  datatype StatsRequest = CustomersCount | BuildingsCount | AssetsCount | ActiveCount | MaintenanceCount

  const StatsFailure := "Failed to fetch dashboard stats"

  /**
   * `getStats()`: if any of the five requests failed, one error with a fixed message; otherwise
   * the exact counts (`count ?? 0` never falls back on a successful request).
   */
  function GetStats(db: Db, inject: StatsRequest -> StoreOutcome): (r: Result<Stats, string>)
  {
    if inject(CustomersCount).Err? || inject(BuildingsCount).Err? || inject(AssetsCount).Err?
       || inject(ActiveCount).Err? || inject(MaintenanceCount).Err?
    then Failure(StatsFailure)
    else Success(Stats(|db.customers|, |db.buildings|, |db.assets|,
                       |Filter(db.assets, (a: Asset) => a.status == "Active")|,
                       |Filter(db.assets, (a: Asset) => a.status == "Maintenance")|))
  }

  /**
   * `getStats` reports a failure exactly when some request failed, and otherwise the same numbers
   * as the dashboard's own `fetchDashboardStats` on fault-free requests. Where the dashboard would
   * show zeros for a failed request, `getStats` fails.
   */
  lemma GetStatsAgrees(db: Db, inject: StatsRequest -> StoreOutcome)
    ensures GetStats(db, inject).Failure? <==> exists q :: inject(q).Err?
    ensures GetStats(db, inject).Failure? ==> GetStats(db, inject).error == StatsFailure
    ensures GetStats(db, inject).Success? ==> GetStats(db, inject).value == FetchDashboardStats(db, Ok, Ok, Ok)
  {
    if GetStats(db, inject).Success? {
      forall q ensures inject(q).Ok? {
        match q
        case CustomersCount =>
        case BuildingsCount =>
        case AssetsCount =>
        case ActiveCount =>
        case MaintenanceCount =>
      }
      var active := "Active";
      var maintenance := "Maintenance";
      FilterExt(db.assets, (a: Asset) => a.status == "Active", (a: Asset) => a.status == active);
      FilterExt(db.assets, (a: Asset) => a.status == "Maintenance", (a: Asset) => a.status == maintenance);
      assert Filter(db.assets, (a: Asset) => a.status == active) == WithStatus(db.assets, "Active");
      assert Filter(db.assets, (a: Asset) => a.status == maintenance) == WithStatus(db.assets, "Maintenance");
    } else {
      var q := if inject(CustomersCount).Err? then CustomersCount
               else if inject(BuildingsCount).Err? then BuildingsCount
               else if inject(AssetsCount).Err? then AssetsCount
               else if inject(ActiveCount).Err? then ActiveCount
               else MaintenanceCount;
      assert inject(q).Err?;
    }
  }

  /** The three lines of the summary. */
  function ActiveLine(stats: Stats): string {
    "• " + NatToString(stats.activeAssets) + " assets are currently active."
  }

  function MaintenanceLine(stats: Stats): string {
    "• " + NatToString(stats.maintenanceAssets) + " assets are under maintenance."
  }

  const Healthy := "• Asset distribution is healthy overall."

  /** `getAIInsights(stats)`: the three lines, joined by line breaks. */
  function GetAIInsights(stats: Stats): string {
    ActiveLine(stats) + "\n" + MaintenanceLine(stats) + "\n" + Healthy
  }

  /** The number a summary line starts with, after its bullet. */
  function LeadingCount(line: string): (n: Option<nat>)
  {
    if |line| >= 2 && line[..2] == "• " && DigitPrefix(line[2..]) != ""
    then Some(DigitsValue(DigitPrefix(line[2..])))
    else None
  }

  /**
   * The summary has exactly three lines, and the first two give back the active and the
   * maintenance counts it was built from.
   */
  lemma InsightsReadBack(stats: Stats)
    ensures var lines := Lines(GetAIInsights(stats));
      && |lines| == 3
      && LeadingCount(lines[0]) == Some(stats.activeAssets)
      && LeadingCount(lines[1]) == Some(stats.maintenanceAssets)
      && lines[2] == Healthy
  {
    InsightsLines(stats);
    ReadsCount(NatToString(stats.activeAssets), " assets are currently active.");
    ReadsCount(NatToString(stats.maintenanceAssets), " assets are under maintenance.");
    NatToStringRoundTrip(stats.activeAssets);
    NatToStringRoundTrip(stats.maintenanceAssets);
  }

  lemma InsightsLines(stats: Stats)
    ensures Lines(GetAIInsights(stats)) == [ActiveLine(stats), MaintenanceLine(stats), Healthy]
  {
    var l0 := ActiveLine(stats);
    var l1 := MaintenanceLine(stats);
    NoBreak("• ", NatToString(stats.activeAssets), " assets are currently active.");
    NoBreak("• ", NatToString(stats.maintenanceAssets), " assets are under maintenance.");
    assert '\n' !in Healthy;
    Regroup(l0, l1, Healthy);
    ThreeLines(l0, l1, Healthy);
  }

  lemma Regroup(x: string, y: string, z: string)
    ensures x + "\n" + y + "\n" + z == x + "\n" + (y + "\n" + z)
  {
  }

  lemma NoBreak(p: string, d: string, t: string)
    requires '\n' !in p && '\n' !in t && AllDigits(d)
    ensures '\n' !in p + d + t
  {
  }

  lemma ThreeLines(l0: string, l1: string, l2: string)
    requires '\n' !in l0 && '\n' !in l1 && '\n' !in l2
    ensures Lines(l0 + "\n" + (l1 + "\n" + l2)) == [l0, l1, l2]
  {
    LinesCons(l0, l1 + "\n" + l2);
    LinesCons(l1, l2);
  }

  lemma ReadsCount(d: string, tail: string)
    requires AllDigits(d) && d != [] && tail != [] && tail[0] == ' '
    ensures LeadingCount("• " + d + tail) == Some(DigitsValue(d))
  {
    var line := "• " + d + tail;
    assert line[2..] == d + tail;
    assert line[..2] == "• ";
    DigitPrefixOf(d, tail);
  }

  /** `getCustomers()`: every customer, newest first. */
  function GetCustomers(db: Db, o: StoreOutcome): (r: Result<seq<Customer>, StoreError>)
    ensures o.Ok? <==> r.Success?
  {
    if o.Err? then Failure(o.error) else Success(SortDesc(db.customers, CustomerCreatedAt))
  }

  /** `getBuildings(customerId?)`: a truthy id filters on the owner; the rows come newest first. */
  function GetBuildings(db: Db, customerId: Option<string>, o: StoreOutcome): (r: Result<seq<Building>, StoreError>)
    ensures o.Ok? <==> r.Success?
  {
    if o.Err? then Failure(o.error)
    else
      var rows := if customerId.Some? && Truthy(customerId.value)
                  then Filter(db.buildings, (b: Building) => b.customerId == customerId.value)
                  else db.buildings;
      Success(SortDesc(rows, BuildingCreatedAt))
  }

  /** `getAssets(buildingId?)`: a truthy id filters on the building; the rows come newest first. */
  function GetAssets(db: Db, buildingId: Option<string>, o: StoreOutcome): (r: Result<seq<Asset>, StoreError>)
    ensures o.Ok? <==> r.Success?
  {
    if o.Err? then Failure(o.error)
    else
      var rows := if buildingId.Some? && Truthy(buildingId.value)
                  then Filter(db.assets, (a: Asset) => a.buildingId == buildingId.value)
                  else db.assets;
      Success(SortDesc(rows, AssetCreatedAt))
  }

  /**
   * The service's list reads agree with the feature query modules: with an id they return the
   * same newest-first rows as `fetchBuildings` / `fetchAssets`; with no id (or an empty one) the
   * buildings are those of `fetchAllBuildings`, the customers those of the newest-first order, and
   * the assets the whole table rearranged newest first, which `fetchAllAssets` returns in the
   * model's stored order (the database promises no order there).
   */
  lemma ListReadsAgree(db: Db, id: string, o: StoreOutcome)
    ensures id != "" ==> GetBuildings(db, Some(id), o) == FetchBuildings(db, id, o)
    ensures id != "" ==> GetAssets(db, Some(id), o) == FetchAssets(db, id, o)
    ensures GetBuildings(db, None, o) == GetBuildings(db, Some(""), o) == FetchAllBuildings(db, o)
    ensures GetCustomers(db, o).Success? ==> GetCustomers(db, o).value == NewestFirst(db)
    ensures GetAssets(db, None, o) == GetAssets(db, Some(""), o)
    ensures GetAssets(db, None, o).Success? ==>
      var rows := GetAssets(db, None, o).value;
      SortedDesc(rows, AssetCreatedAt) && multiset(rows) == multiset(db.assets) &&
      multiset(rows) == multiset(FetchAllAssets(db, None, o).value)
  {
    var cid := id;
    FilterExt(db.buildings, (b: Building) => b.customerId == Some(cid).value, (b: Building) => b.customerId == cid);
    FilterExt(db.assets, (a: Asset) => a.buildingId == Some(cid).value, (a: Asset) => a.buildingId == cid);
  }
}
