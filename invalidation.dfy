/**
 * Which screen reads which cache entry, and which entries each mutation invalidates on success.
 * `Refreshes(m, v)` holds when a successful `m` marks the entry that view `v` reads as stale;
 * `Expected` lists the same relation screen by screen, and `RefreshedViews` proves they agree.
 */
module Invalidation {
  import opened Wrappers
  import opened Text
  import opened Cache

  /** Every screen that reads through the cache; route and search parameters may be absent. */
  datatype View =
    | CustomersView                                 // the paged customer list
    | BuildingsOfCustomer(customerId: Option<string>)
    | BuildingsOverview                             // every building
    | AssetsOfBuilding(buildingId: Option<string>)
    | AssetsOverview(status: Option<string>)        // `None` is a missing `?status=`
    | AssetView(assetId: Option<string>)            // asset details and the asset edit form
    | DashboardView

  /** A route parameter as a key segment. */
  function Param(p: Option<string>): Seg {
    if p.Some? then Str(p.value) else Undefined
  }

  /** A route parameter used as `enabled: !!param`. */
  predicate Present(p: Option<string>) {
    p.Some? && Truthy(p.value)
  }

  /** The key a view's query reads, or `None` when the query is disabled and reads nothing. */
  function ReadKey(v: View): (r: Option<Key>)
    ensures r.None? <==> match v
      case BuildingsOfCustomer(c) => !Present(c)
      case AssetsOfBuilding(b) => !Present(b)
      case AssetView(a) => !Present(a)
      case _ => false
    ensures r.Some? ==> |r.value| >= 1 && Defined(r.value)
  {
    match v
    case CustomersView => Some([Str("customers")])
    case BuildingsOfCustomer(c) => if Present(c) then Some([Str("buildings"), Param(c)]) else None
    case BuildingsOverview => Some([Str("buildings")])
    case AssetsOfBuilding(b) => if Present(b) then Some([Str("assets"), Param(b)]) else None
    case AssetsOverview(s) => Some([Str("assets"), if s.Some? then Str(s.value) else Null])
    case AssetView(a) => if Present(a) then Some([Str("asset"), Param(a)]) else None
    case DashboardView => Some([Str("dashboard-stats")])
  }

  /**
   * Two enabled views share a cache entry only when they are the same view, or when a building id
   * spells the same string as the overview's status filter.
   */
  lemma SharedEntries(v1: View, v2: View)
    requires ReadKey(v1).Some? && ReadKey(v2).Some?
    ensures ReadKey(v1) == ReadKey(v2) <==>
      v1 == v2 ||
      (v1.AssetsOfBuilding? && v2.AssetsOverview? && v2.status == v1.buildingId) ||
      (v2.AssetsOfBuilding? && v1.AssetsOverview? && v1.status == v2.buildingId)
  {
  }

  /** Every mutation whose success handler invalidates queries, with the ids its handler uses. */
  datatype Mutation =
    | CreateCustomer
    | EditCustomer(customerId: string)
    | DeleteCustomer
    | CreateBuilding(customerId: string)
    | EditBuilding(buildingId: string, customerId: string)
    | DeleteBuilding(customerId: string)
    | CreateAsset(buildingId: string)
    | EditAsset(assetId: string, buildingId: string)
    | SetAssetStatus(assetId: string, buildingId: string)
    | DeleteAsset(buildingId: string)
    | TableChanged                                  // a realtime change event on any of the three tables

  /** The filters a mutation's success handler passes to `invalidateQueries`, in order. */
  function InvalidationKeys(m: Mutation): (r: seq<Key>)
    ensures forall i :: 0 <= i < |r| ==> Defined(r[i])
  {
    match m
    case CreateCustomer => [[Str("customers")]]
    case EditCustomer(c) => [[Str("customers")], [Str("customer"), Str(c)], [Str("buildings"), Str(c)]]
    case DeleteCustomer => [[Str("customers")]]
    case CreateBuilding(c) => [[Str("buildings"), Str(c)]]
    case EditBuilding(b, c) => [[Str("buildings")], [Str("buildings"), Str(c)], [Str("building"), Str(b)]]
    case DeleteBuilding(c) => [[Str("buildings"), Str(c)]]
    case CreateAsset(b) => [[Str("assets"), Str(b)]]
    case EditAsset(a, b) => [[Str("asset"), Str(a)], [Str("assets"), Str(b)]]
    case SetAssetStatus(a, b) => [[Str("asset"), Str(a)], [Str("assets"), Str(b)]]
    case DeleteAsset(b) => [[Str("assets"), Str(b)]]
    case TableChanged => [[Str("dashboard-stats")]]
  }

  /** A successful `m` marks the entry `v` reads as stale. */
  predicate Refreshes(m: Mutation, v: View) {
    ReadKey(v).Some? && AnyMatches(ReadKey(v).value, InvalidationKeys(m))
  }

  /** The views each mutation refreshes, listed screen by screen. */
  predicate Expected(m: Mutation, v: View) {
    match m
    case CreateCustomer => v == CustomersView
    case DeleteCustomer => v == CustomersView
    case EditCustomer(c) => v == CustomersView || (v == BuildingsOfCustomer(Some(c)) && Truthy(c))
    case CreateBuilding(c) => v == BuildingsOfCustomer(Some(c)) && Truthy(c)
    case DeleteBuilding(c) => v == BuildingsOfCustomer(Some(c)) && Truthy(c)
    case EditBuilding(_, _) => v == BuildingsOverview || (v.BuildingsOfCustomer? && Present(v.customerId))
    case CreateAsset(b) => AssetsOf(v, b)
    case DeleteAsset(b) => AssetsOf(v, b)
    case EditAsset(a, b) => AssetsOf(v, b) || (v == AssetView(Some(a)) && Truthy(a))
    case SetAssetStatus(a, b) => AssetsOf(v, b) || (v == AssetView(Some(a)) && Truthy(a))
    case TableChanged => v == DashboardView
  }

  /** The asset list of building `b`, or the overview whose status filter happens to read `b`. */
  predicate AssetsOf(v: View, b: string) {
    (v == AssetsOfBuilding(Some(b)) && Truthy(b)) || v == AssetsOverview(Some(b))
  }

  lemma MatchesOne(k: Key, f: Key)
    ensures AnyMatches(k, [f]) <==> Matches(k, f)
  {
    if Matches(k, f) {
      assert [f][0] == f;
    }
  }

  lemma MatchesTwo(k: Key, f: Key, g: Key)
    ensures AnyMatches(k, [f, g]) <==> Matches(k, f) || Matches(k, g)
  {
    if Matches(k, f) {
      assert [f, g][0] == f;
    }
    if Matches(k, g) {
      assert [f, g][1] == g;
    }
  }

  lemma MatchesThree(k: Key, f: Key, g: Key, h: Key)
    ensures AnyMatches(k, [f, g, h]) <==> Matches(k, f) || Matches(k, g) || Matches(k, h)
  {
    if Matches(k, f) {
      assert [f, g, h][0] == f;
    }
    if Matches(k, g) {
      assert [f, g, h][1] == g;
    }
    if Matches(k, h) {
      assert [f, g, h][2] == h;
    }
  }

  /** A filter of one segment matches the keys that start with it. */
  lemma MatchesHead(k: Key, a: string)
    ensures Matches(k, [Str(a)]) <==> |k| >= 1 && k[0] == Str(a)
  {
    assert SegAt(k, 0) == if |k| >= 1 then k[0] else Undefined;
  }

  /** A filter of two segments matches the keys that start with both. */
  lemma MatchesPair(k: Key, a: string, b: string)
    ensures Matches(k, [Str(a), Str(b)]) <==> |k| >= 2 && k[0] == Str(a) && k[1] == Str(b)
  {
    assert SegAt(k, 0) == if |k| >= 1 then k[0] else Undefined;
    assert SegAt(k, 1) == if |k| >= 2 then k[1] else Undefined;
  }

  /** The invalidation table and the screen-by-screen list agree for every mutation and view. */
  lemma RefreshedViews(m: Mutation, v: View)
    ensures Refreshes(m, v) <==> Expected(m, v)
  {
    if ReadKey(v).Some? {
      var k := ReadKey(v).value;
      match m
      case CreateCustomer =>
        MatchesOne(k, [Str("customers")]); MatchesHead(k, "customers");
      case DeleteCustomer =>
        MatchesOne(k, [Str("customers")]); MatchesHead(k, "customers");
      case EditCustomer(c) =>
        MatchesThree(k, [Str("customers")], [Str("customer"), Str(c)], [Str("buildings"), Str(c)]);
        MatchesHead(k, "customers"); MatchesPair(k, "customer", c); MatchesPair(k, "buildings", c);
      case CreateBuilding(c) =>
        MatchesOne(k, [Str("buildings"), Str(c)]); MatchesPair(k, "buildings", c);
      case DeleteBuilding(c) =>
        MatchesOne(k, [Str("buildings"), Str(c)]); MatchesPair(k, "buildings", c);
      case EditBuilding(b, c) =>
        MatchesThree(k, [Str("buildings")], [Str("buildings"), Str(c)], [Str("building"), Str(b)]);
        MatchesHead(k, "buildings"); MatchesPair(k, "buildings", c); MatchesPair(k, "building", b);
      case CreateAsset(b) =>
        MatchesOne(k, [Str("assets"), Str(b)]); MatchesPair(k, "assets", b);
      case DeleteAsset(b) =>
        MatchesOne(k, [Str("assets"), Str(b)]); MatchesPair(k, "assets", b);
      case EditAsset(a, b) =>
        MatchesTwo(k, [Str("asset"), Str(a)], [Str("assets"), Str(b)]);
        MatchesPair(k, "asset", a); MatchesPair(k, "assets", b);
      case SetAssetStatus(a, b) =>
        MatchesTwo(k, [Str("asset"), Str(a)], [Str("assets"), Str(b)]);
        MatchesPair(k, "asset", a); MatchesPair(k, "assets", b);
      case TableChanged =>
        MatchesOne(k, [Str("dashboard-stats")]); MatchesHead(k, "dashboard-stats");
    }
  }

  /**
   * Only a realtime change event refreshes the dashboard, and no mutation refreshes the unfiltered
   * asset overview or a disabled query.
   */
  lemma WhatNothingRefreshes(m: Mutation, v: View)
    ensures Refreshes(m, DashboardView) <==> m == TableChanged
    ensures !Refreshes(m, AssetsOverview(None))
    ensures ReadKey(v).None? ==> !Refreshes(m, v)
  {
    RefreshedViews(m, DashboardView);
    RefreshedViews(m, AssetsOverview(None));
  }

  /**
   * After a mutation's handler runs `invalidateQueries` for each of its filters, a cached view's
   * entry is stale exactly when it was stale already or the mutation refreshes that view.
   */
  lemma StaleAfter(cached: set<Key>, stale: set<Key>, m: Mutation, v: View)
    requires ReadKey(v).Some? && ReadKey(v).value in cached
    ensures ReadKey(v).value in Invalidated(cached, stale, InvalidationKeys(m)) <==>
      ReadKey(v).value in stale || Expected(m, v)
  {
    RefreshedViews(m, v);
  }
}
