/**
 * A customer's building list: read only when the route names a customer, a delete button on every
 * card, and a confirmation dialog driven by the selected building id.
 */
module BuildingsListView {
  import opened Wrappers
  import opened Text
  import opened Records
  import opened Tables
  import opened StoreClient
  import opened Cache
  import opened Invalidation
  import opened Integrity

  const NoAddress := "No address provided"

  /** `building.address || "No address provided"`: a null or empty address shows the fallback. */
  function AddressLabel(address: Option<string>): string {
    OrElse(address, NoAddress)
  }

  /** A card never shows an empty address line. */
  lemma AddressLabelShows(address: Option<string>)
    ensures Truthy(AddressLabel(address))
    ensures AddressLabel(address) != NoAddress ==> address == Some(AddressLabel(address))
  {
  }

  /** The page's `selectedBuilding` state and the dialog it drives. */
  class BuildingsList {
    var selected: Option<Id>

    constructor ()
      ensures selected == None
    {
      selected := None;
    }

    predicate DialogOpen()
      reads this
    {
      selected.Some? && Truthy(selected.value)
    }

    /** The delete button every card renders, whatever assets the building holds. */
    method AskDelete(b: Building)
      modifies this
      ensures selected == Some(b.id)
      ensures DialogOpen() <==> Truthy(b.id)
    {
      selected := Some(b.id);
    }

    method Cancel()
      modifies this
      ensures selected == None && !DialogOpen()
    {
      selected := None;
    }

    /**
     * The dialog's confirm button: when a building is selected, run the building cascade. Success
     * invalidates only the route customer's building list and clears the selection.
     */
    method Confirm(store: Store, cache: QueryCache, customerId: string, inject: Step -> StoreOutcome)
      returns (sent: Option<StoreOutcome>)
      modifies this, store, cache
      ensures !old(DialogOpen()) ==>
        sent == None && selected == old(selected) && store.Snapshot() == old(store.Snapshot()) &&
        cache.cached == old(cache.cached) && cache.stale == old(cache.stale)
      ensures old(DialogOpen()) ==>
        var run := BuildingCascade(old(store.Snapshot()), old(selected).value, inject);
        sent == Some(run.outcome) && store.Snapshot() == run.db && cache.cached == old(cache.cached) &&
        (run.outcome.Ok? ==> (selected == None &&
          cache.stale == Invalidated(old(cache.cached), old(cache.stale), InvalidationKeys(DeleteBuilding(customerId))))) &&
        (run.outcome.Err? ==> (selected == old(selected) && cache.stale == old(cache.stale)))
      ensures old(store.Consistent()) ==> store.Consistent()
      ensures old(cache.Valid()) ==> cache.Valid()
    {
      if !DialogOpen() {
        return None;
      }
      var out := store.DeleteBuildingCascade(selected.value, inject);
      sent := Some(out);
      if out.Ok? {
        cache.InvalidateEach(InvalidationKeys(DeleteBuilding(customerId)));
        selected := None;
      }
    }
  }

  /**
   * A successful building delete refreshes the customer's building list only: neither the building
   * overview nor the deleted building's asset list is marked stale.
   */
  lemma DeleteRefreshes(customerId: string, buildingId: string, v: View)
    ensures Refreshes(DeleteBuilding(customerId), v) <==> v == BuildingsOfCustomer(Some(customerId)) && Truthy(customerId)
    ensures !Refreshes(DeleteBuilding(customerId), BuildingsOverview)
    ensures !Refreshes(DeleteBuilding(customerId), AssetsOfBuilding(Some(buildingId)))
  {
    RefreshedViews(DeleteBuilding(customerId), v);
    RefreshedViews(DeleteBuilding(customerId), BuildingsOverview);
    RefreshedViews(DeleteBuilding(customerId), AssetsOfBuilding(Some(buildingId)));
  }
}
