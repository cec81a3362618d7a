/**
 * The asset details page: the status actions it offers, the status and delete mutations, and the
 * delete confirmation it keeps open in `showDelete`.
 */
module AssetDetailsView {
  import opened Wrappers
  import opened Text
  import opened Records
  import opened Tables
  import opened StoreClient
  import opened Cache
  import opened Invalidation
  import opened AssetDisplay

  /** The two status buttons the page can render. */
  datatype Action = MarkActive | MarkInactive {
    /** The status the button sends to `updateAssetStatus`. */
    function Target(): Status {
      match this
      case MarkActive => Active
      case MarkInactive => Inactive
    }
  }

  /** The buttons rendered for an asset showing `status`, in page order. */
  function Actions(status: string): (r: seq<Action>) {
    (if status != Active.Name() then [MarkActive] else []) + (if status != Inactive.Name() then [MarkInactive] else [])
  }

  /**
   * "Mark Active" appears exactly when the asset is not Active and "Mark Inactive" exactly when it is
   * not Inactive, so a Maintenance asset (or one holding any other string) gets both; no button
   * sends Maintenance, and there is always at least one button.
   */
  lemma ActionsOffered(status: string)
    ensures MarkActive in Actions(status) <==> status != "Active"
    ensures MarkInactive in Actions(status) <==> status != "Inactive"
    ensures status == Maintenance.Name() ==> Actions(status) == [MarkActive, MarkInactive]
    ensures 1 <= |Actions(status)| <= 2
    ensures forall a :: a in Actions(status) ==> a.Target() != Maintenance && a.Target().Name() != status
  {
  }

  /** After a button's status is stored, that button is gone and the other one is offered. */
  lemma ActionsAfter(a: Action)
    ensures Actions(a.Target().Name()) == [if a == MarkActive then MarkInactive else MarkActive]
  {
  }

  /**
   * The placeholder a detail item shows for a missing or empty value: the page's literal, an em dash
   * whose UTF-8 bytes were read back as three Windows-1252 characters.
   */
  const Dash := "\U{E2}\U{20AC}\U{201D}"

  /** `DetailItem`: the value, or the dash when it is missing or empty. */
  function DetailValue(value: Option<string>): string {
    OrElse(value, Dash)
  }

  /**
   * The Status and Category items show the row's status and type; a typed asset's Category item
   * reads the same as its Asset Type field, and where the type is missing the two show different
   * placeholders. No item is ever blank.
   */
  lemma DetailItems(a: Asset)
    ensures a.status != "" ==> DetailValue(Some(a.status)) == a.status
    ensures a.status == "" ==> DetailValue(Some(a.status)) == Dash
    ensures a.assetType.Some? && a.assetType.value != "" ==> DetailValue(a.assetType) == TypeField(a) == a.assetType.value
    ensures a.assetType.None? || a.assetType.value == "" ==> DetailValue(a.assetType) == Dash != TypeField(a)
    ensures DetailValue(Some(a.status)) != "" && DetailValue(a.assetType) != ""
  {
    TypeFallbacks(a);
  }

  /** The page's delete confirmation state. */
  class AssetDetails {
    var showDelete: bool

    constructor ()
      ensures !showDelete
    {
      showDelete := false;
    }

    method AskDelete()
      modifies this
      ensures showDelete
    {
      showDelete := true;
    }

    method Cancel()
      modifies this
      ensures !showDelete
    {
      showDelete := false;
    }

    /**
     * A status button for the asset showing `shown`: an offered button stores its status on the
     * route's asset, and success invalidates the asset entry and the building's asset list. A
     * button that is not rendered does nothing.
     */
    method Apply(store: Store, cache: QueryCache, assetId: Id, buildingId: Id, shown: string, a: Action, o: StoreOutcome)
      returns (sent: Option<StoreOutcome>)
      modifies store, cache
      ensures a !in Actions(shown) ==>
        sent == None && store.Snapshot() == old(store.Snapshot()) &&
        cache.cached == old(cache.cached) && cache.stale == old(cache.stale)
      ensures a in Actions(shown) ==>
        sent.Some? &&
        Run(store.Snapshot(), sent.value) == Attempt(old(store.Snapshot()), o, Tables.SetAssetStatus(old(store.Snapshot()), assetId, a.Target().Name())) &&
        cache.cached == old(cache.cached) &&
        cache.stale == (if o.Ok? then Invalidated(old(cache.cached), old(cache.stale), InvalidationKeys(Invalidation.SetAssetStatus(assetId, buildingId)))
                        else old(cache.stale))
      ensures old(store.Consistent()) ==> store.Consistent()
      ensures old(cache.Valid()) ==> cache.Valid()
    {
      if a !in Actions(shown) {
        return None;
      }
      var out := store.UpdateAssetStatus(assetId, a.Target().Name(), o);
      sent := Some(out);
      if out.Ok? {
        cache.InvalidateEach(InvalidationKeys(Invalidation.SetAssetStatus(assetId, buildingId)));
      }
    }

    /**
     * The confirm button of the delete dialog, which exists only while the dialog is open: delete
     * the route's asset; success invalidates only the building's asset list, not the asset's own
     * entry. The dialog stays open while the request runs; the navigation away on success is not
     * part of this model.
     */
    method ConfirmDelete(store: Store, cache: QueryCache, assetId: Id, buildingId: Id, o: StoreOutcome)
      returns (sent: StoreOutcome)
      requires showDelete
      modifies store, cache
      ensures showDelete
      ensures Run(store.Snapshot(), sent) == Attempt(old(store.Snapshot()), o, DeleteAssetRows(old(store.Snapshot()), assetId))
      ensures cache.cached == old(cache.cached)
      ensures cache.stale == if o.Ok? then Invalidated(old(cache.cached), old(cache.stale), InvalidationKeys(Invalidation.DeleteAsset(buildingId))) else old(cache.stale)
      ensures old(store.Consistent()) ==> store.Consistent()
      ensures old(cache.Valid()) ==> cache.Valid()
    {
      sent := store.DeleteAsset(assetId, o);
      if sent.Ok? {
        cache.InvalidateEach(InvalidationKeys(Invalidation.DeleteAsset(buildingId)));
      }
    }
  }

  /**
   * A status change refreshes the asset's page and its building's list; a delete refreshes the list
   * but leaves the deleted asset's own entry as it was.
   */
  lemma MutationsRefresh(assetId: string, buildingId: string, v: View)
    ensures Refreshes(Invalidation.SetAssetStatus(assetId, buildingId), v) <==>
      AssetsOf(v, buildingId) || (v == AssetView(Some(assetId)) && assetId != "")
    ensures Refreshes(DeleteAsset(buildingId), v) <==> AssetsOf(v, buildingId)
    ensures !Refreshes(DeleteAsset(buildingId), AssetView(Some(assetId)))
  {
    RefreshedViews(Invalidation.SetAssetStatus(assetId, buildingId), v);
    RefreshedViews(DeleteAsset(buildingId), v);
    RefreshedViews(DeleteAsset(buildingId), AssetView(Some(assetId)));
  }
}
