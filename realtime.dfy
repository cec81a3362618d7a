/**
 * `useDashboardRealtime`: while the dashboard is mounted, one channel listens to every change event
 * on the three tables, and each event marks the dashboard's stats entry stale.
 */
module DashboardRealtime {
  import opened Wrappers
  import opened Cache
  import opened Invalidation

  /** The tables the channel listens to. */
  datatype Table = AssetsTable | BuildingsTable | CustomersTable

  /** The kinds of change event the `"*"` filter lets through. */
  datatype ChangeEvent = Insert | Update | Delete

  /** The tables with a handler, in registration order. */
  const Watched: seq<Table> := [AssetsTable, BuildingsTable, CustomersTable]

  /** Every table has a handler, and each exactly one. */
  lemma EveryTableWatched(t: Table)
    ensures t in Watched
    ensures forall i, j :: 0 <= i < j < |Watched| ==> Watched[i] != Watched[j]
  {
  }

  /**
   * The keys an event invalidates: the same single key whatever the table and the event kind. Its
   * contract only ties the hook's key list to the `TableChanged` entry of the invalidation table;
   * that this key refreshes the dashboard and no other view is `EventsRefreshOnlyTheDashboard`.
   */
  function EventKeys(t: Table, e: ChangeEvent): (r: seq<Key>)
    ensures r == InvalidationKeys(TableChanged)
  {
    [[Str("dashboard-stats")]]
  }

  /** An event refreshes the dashboard and no other view. */
  lemma EventsRefreshOnlyTheDashboard(t: Table, e: ChangeEvent, v: View)
    ensures (exists k :: k in EventKeys(t, e) && ReadKey(v) == Some(k)) <==> v == DashboardView
  {
    RefreshedViews(TableChanged, v);
    if v == DashboardView {
      assert [Str("dashboard-stats")] in EventKeys(t, e);
    }
  }

  /** The hook's effect: whether its channel is currently subscribed. */
  class Subscription {
    var subscribed: bool

    constructor ()
      ensures !subscribed
    {
      subscribed := false;
    }

    /** The effect runs: the channel with its three handlers is subscribed. */
    method Mount()
      modifies this
      ensures subscribed
    {
      subscribed := true;
    }

    /**
     * A change event from the channel. While subscribed it marks every cached entry under
     * `["dashboard-stats"]` stale; after teardown nothing is delivered and the cache is untouched.
     */
    method OnChange(cache: QueryCache, t: Table, e: ChangeEvent)
      modifies cache
      ensures cache.cached == old(cache.cached)
      ensures cache.stale == if subscribed then Invalidated(old(cache.cached), old(cache.stale), InvalidationKeys(TableChanged)) else old(cache.stale)
      ensures old(cache.Valid()) ==> cache.Valid()
    {
      if subscribed {
        cache.InvalidateEach(EventKeys(t, e));
      }
    }

    /** The effect's cleanup: the channel is removed. */
    method Teardown()
      modifies this
      ensures !subscribed
    {
      subscribed := false;
    }
  }
}
