/**
 * The dashboard page: its read of `["dashboard-stats"]`, the five KPI cards and where they link, the
 * two health percentages, the entity bar chart and the asset status distribution.
 */
module DashboardPage {
  import opened Wrappers
  import opened Text
  import opened Records
  import opened Tables
  import opened BuildingQueries
  import opened AssetQueries
  import opened DashboardQueries
  import opened Cache
  import opened Invalidation

  /** The five fields of the stats record a card can show. */
  datatype StatField = TotalCustomers | TotalBuildings | TotalAssets | ActiveAssets | MaintenanceAssets

  /** `stats[stat.key]`. */
  function Value(s: Stats, f: StatField): nat {
    match f
    case TotalCustomers => s.totalCustomers
    case TotalBuildings => s.totalBuildings
    case TotalAssets => s.totalAssets
    case ActiveAssets => s.activeAssets
    case MaintenanceAssets => s.maintenanceAssets
  }

  /** One entry of the KPI configuration: caption, stats field and the route the card opens. */
  datatype StatConfig = StatConfig(caption: string, field: StatField, link: string)

  /** The route prefix of the status-filtered asset overview. */
  const StatusQuery := "/assets?status="

  /** The KPI configuration, in render order. */
  const Kpis: seq<StatConfig> := [
    StatConfig("Customers", TotalCustomers, "/customers"),
    StatConfig("Buildings", TotalBuildings, "/buildings"),
    StatConfig("Total Assets", TotalAssets, "/assets"),
    StatConfig("Active Assets", ActiveAssets, StatusQuery + "Active"),
    StatConfig("In Maintenance", MaintenanceAssets, StatusQuery + "Maintenance")
  ]

  /** The stats field of each card, in render order. */
  function KpiFields(): seq<StatField> {
    seq(|Kpis|, i requires 0 <= i < |Kpis| => Kpis[i].field)
  }

  /** The view a card's route opens, reading the status search parameter of the overview route. */
  function LinkTarget(link: string): (v: Option<View>) {
    if link == "/customers" then Some(CustomersView)
    else if link == "/buildings" then Some(BuildingsOverview)
    else if link == "/assets" then Some(AssetsOverview(None))
    else if |StatusQuery| <= |link| && link[..|StatusQuery|] == StatusQuery then Some(AssetsOverview(Some(link[|StatusQuery|..])))
    else None
  }

  /**
   * Every stats field has exactly one card, cards are keyed by distinct fields and open distinct
   * routes; the Active and Maintenance cards open the overview filtered on that status.
   */
  lemma KpiTable()
    ensures |Kpis| == 5
    ensures forall i, j :: 0 <= i < j < |Kpis| ==> Kpis[i].field != Kpis[j].field && Kpis[i].link != Kpis[j].link
    ensures forall f: StatField :: f in KpiFields()
    ensures LinkTarget(Kpis[3].link) == Some(AssetsOverview(Some(Active.Name())))
    ensures LinkTarget(Kpis[4].link) == Some(AssetsOverview(Some(Maintenance.Name())))
  {
    var k3 := StatusQuery + "Active";
    var k4 := StatusQuery + "Maintenance";
    assert k3[..|StatusQuery|] == StatusQuery && k3[|StatusQuery|..] == "Active";
    assert k4[..|StatusQuery|] == StatusQuery && k4[|StatusQuery|..] == "Maintenance";
    assert |k3| == 21 && |k4| == 26;
    assert k3[|StatusQuery|] != k4[|StatusQuery|];
    var fields := KpiFields();
    assert fields == [TotalCustomers, TotalBuildings, TotalAssets, ActiveAssets, MaintenanceAssets];
    forall f: StatField ensures f in fields {
      match f
      case TotalCustomers => assert fields[0] == f;
      case TotalBuildings => assert fields[1] == f;
      case TotalAssets => assert fields[2] == f;
      case ActiveAssets => assert fields[3] == f;
      case MaintenanceAssets => assert fields[4] == f;
    }
  }

  /**
   * With every request succeeding, the building and asset cards show as many rows as the list their
   * route opens: the overview of all buildings, all assets, or the assets with that status.
   */
  lemma CardsMatchTheirLists(db: Db, oc: StoreOutcome, i: nat)
    requires 2 <= i < |Kpis| || i == 1
    ensures var s := FetchDashboardStats(db, oc, Ok, Ok);
      && LinkTarget(Kpis[i].link).Some?
      && (LinkTarget(Kpis[i].link).value == BuildingsOverview ==> Value(s, Kpis[i].field) == |FetchAllBuildings(db, Ok).value|)
      && (LinkTarget(Kpis[i].link).value.AssetsOverview? ==>
            Value(s, Kpis[i].field) == |FetchAllAssets(db, LinkTarget(Kpis[i].link).value.status, Ok).value|)
  {
    KpiTable();
    assert Truthy(Active.Name()) && Truthy(Maintenance.Name());
    assert |multiset(AllBuildings(db))| == |multiset(db.buildings)|;
  }

  /** `Math.round` on a non-negative value: halves round up. */
  function Round(x: real): (n: int)
    ensures x - 0.5 < n as real <= x + 0.5
  {
    (x + 0.5).Floor
  }

  /** `activePct`: the rounded share of `part` in `total`, or 0 when there is nothing to share. */
  function Share(part: nat, total: nat): (p: int)
    ensures total == 0 ==> p == 0
    ensures total > 0 ==> (part as real * 100.0) / total as real - 0.5 < p as real <= (part as real * 100.0) / total as real + 0.5
  {
    if total > 0 then Round((part as real * 100.0) / total as real) else 0
  }

  /** A share of a part no larger than the total is a percentage, 0 for no part and 100 for all of it. */
  lemma ShareBounds(part: nat, total: nat)
    requires part <= total
    ensures 0 <= Share(part, total) <= 100
    ensures part == 0 ==> Share(part, total) == 0
    ensures 0 < part == total ==> Share(part, total) == 100
  {
    if total > 0 {
      var x := (part as real * 100.0) / total as real;
      assert x * total as real == part as real * 100.0;
      assert part as real * 100.0 <= 100.0 * total as real;
      assert 0.0 <= x <= 100.0;
      if part == total {
        assert x == 100.0;
      }
    }
  }

  /** The active percentage of the health bar. */
  function ActivePct(s: Stats): (p: int)
    ensures s.totalAssets == 0 ==> p == 0
  {
    Share(s.activeAssets, s.totalAssets)
  }

  /**
   * `maintenancePct`: `Math.round((maintenance / total) * 100 || 0)`. With a zero total the quotient
   * is NaN when nothing is in maintenance, which `|| 0` turns into 0, and Infinity otherwise, which
   * stays; `None` stands for that Infinity.
   */
  function MaintenancePct(s: Stats): (p: Option<int>) {
    if s.totalAssets > 0 then Some(Round((s.maintenanceAssets as real * 100.0) / s.totalAssets as real))
    else if s.maintenanceAssets == 0 then Some(0)
    else None
  }

  /**
   * On the stats the dashboard fetches both health bars are percentages, both are 0 with no assets,
   * and the maintenance bar's different guard computes the same share as the active bar's.
   */
  lemma HealthBars(db: Db, oc: StoreOutcome, ob: StoreOutcome, oa: StoreOutcome)
    ensures var s := FetchDashboardStats(db, oc, ob, oa);
      && 0 <= ActivePct(s) <= 100
      && MaintenancePct(s) == Some(Share(s.maintenanceAssets, s.totalAssets))
      && 0 <= MaintenancePct(s).value <= 100
      && (s.totalAssets == 0 ==> ActivePct(s) == 0 && MaintenancePct(s) == Some(0))
  {
    var s := FetchDashboardStats(db, oc, ob, oa);
    DistributionAddsUp(db, oc, ob, oa);
    ShareBounds(s.activeAssets, s.totalAssets);
    ShareBounds(s.maintenanceAssets, s.totalAssets);
  }

  /** A stats record with maintenance assets but no total, never fetched, would show Infinity. */
  lemma InfiniteOnlyWithoutTotal(s: Stats)
    ensures MaintenancePct(s).None? <==> s.totalAssets == 0 && s.maintenanceAssets > 0
  {
  }

  /** A bar of the entity chart. */
  datatype Bar = Bar(name: string, value: nat)

  /** `chartData`. */
  function Bars(s: Stats): (r: seq<Bar>) {
    [Bar("Customers", s.totalCustomers), Bar("Buildings", s.totalBuildings), Bar("Assets", s.totalAssets)]
  }

  /** The index of the highlighted bar (`i === 2`). */
  const Highlighted := 2

  /**
   * The chart shows customers, buildings and assets in that order, each bar the value of the KPI card
   * at the same position, and the highlighted bar is the assets bar.
   */
  lemma ChartAgreesWithCards(s: Stats)
    ensures |Bars(s)| == 3
    ensures forall i :: 0 <= i < 3 ==> Bars(s)[i].value == Value(s, Kpis[i].field)
    ensures Bars(s)[Highlighted].value == s.totalAssets && Kpis[Highlighted].field == TotalAssets
  {
  }

  /** A slice of the asset status chart, also a row of the legend keyed by its name. */
  datatype Slice = Slice(name: string, value: int)

  /** `assetDistribution`: the Inactive slice is whatever is neither Active nor Maintenance. */
  function Distribution(s: Stats): (r: seq<Slice>) {
    [Slice("Active", s.activeAssets), Slice("Maintenance", s.maintenanceAssets),
     Slice("Inactive", s.totalAssets - s.activeAssets - s.maintenanceAssets)]
  }

  /** The sum of the slices' values. */
  function SliceTotal(r: seq<Slice>): (n: int)
    decreases |r|
  {
    if r == [] then 0 else r[0].value + SliceTotal(r[1..])
  }

  /**
   * The slices always add up to the total and have distinct legend keys; on fetched stats no slice
   * is negative and, with the asset request succeeding, the Inactive slice counts exactly the rows
   * whose status is neither Active nor Maintenance.
   */
  lemma DistributionSlices(db: Db, oc: StoreOutcome, ob: StoreOutcome, oa: StoreOutcome)
    ensures var s := FetchDashboardStats(db, oc, ob, oa);
      && SliceTotal(Distribution(s)) == s.totalAssets
      && (forall i, j :: 0 <= i < j < 3 ==> Distribution(s)[i].name != Distribution(s)[j].name)
      && (forall i :: 0 <= i < 3 ==> Distribution(s)[i].value >= 0)
      && (oa.Ok? ==> Distribution(s)[2].value == |OtherStatus(db.assets)|)
  {
    DistributionAddsUp(db, oc, ob, oa);
    SlicesAddUp(FetchDashboardStats(db, oc, ob, oa));
  }

  /** Whatever the counts, the three slices sum to the total and their legend keys differ. */
  lemma SlicesAddUp(s: Stats)
    ensures SliceTotal(Distribution(s)) == s.totalAssets
    ensures forall i, j :: 0 <= i < j < 3 ==> Distribution(s)[i].name != Distribution(s)[j].name
  {
    var d := Distribution(s);
    assert SliceTotal(d[2..]) == d[2].value + SliceTotal(d[3..]);
    assert SliceTotal(d[1..]) == d[1].value + SliceTotal(d[2..]);
  }

  /** The page reads the key a realtime change invalidates, and that change refreshes it. */
  lemma ReadsTheRealtimeKey()
    ensures ReadKey(DashboardView) == Some([Str("dashboard-stats")])
    ensures InvalidationKeys(TableChanged) == [ReadKey(DashboardView).value]
  {
  }
}
