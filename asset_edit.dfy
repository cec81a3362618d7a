/**
 * The asset edit form: filled from the loaded asset, name and type required, any of the three
 * statuses; then `updateAsset` on the route's asset.
 */
module AssetEditForm {
  import opened Wrappers
  import opened Records
  import opened Tables
  import opened StoreClient
  import opened Cache
  import opened Invalidation
  import opened Forms
  import AssetCreateForm

  const NameRequired := "Asset name is required"
  const TypeRequired := "Asset type is required"
  const NullType := "Expected string, received null"
  const UpdateFailed := "Failed to update asset. Please try again."

  /** The form's fields; the type is `null` when the loaded asset has none and it is not edited. */
  datatype Values = Values(name: string, assetType: Option<string>, status: string)

  /** `reset({ name, type, status })` once the asset has loaded. */
  function Reset(a: Asset): (v: Values)
    ensures v.name == a.name && v.assetType == a.assetType && v.status == a.status
  {
    Values(a.name, a.assetType, a.status)
  }

  /** `z.string().min(1, message)` on a field the loaded row may hold as `null`. */
  function RequiredString(field: string, message: string, s: Option<string>): (r: Checked<string>)
    ensures r.Success? <==> s.Some? && |s.value| >= 1
    ensures r.Success? ==> r.value == s.value
    ensures s.None? ==> r == Failure([Issue(field, NullType)])
  {
    if s.None? then Failure([Issue(field, NullType)]) else NonEmpty(field, message, s.value)
  }

  /** The schema, then the payload: all three fields, which are all the update sends. */
  function Validate(v: Values): (r: Checked<AssetPatch>)
    ensures r.Success? <==>
      |v.name| >= 1 && v.assetType.Some? && |v.assetType.value| >= 1 && ParseStatus(v.status).Some?
    ensures r.Success? ==>
      r.value.name == Some(v.name) && r.value.assetType == v.assetType &&
      r.value.status == ParseStatus(v.status)
  {
    var name := NonEmpty("name", NameRequired, v.name);
    var kind := RequiredString("type", TypeRequired, v.assetType);
    var status := OneOf("status", [Active, Maintenance, Inactive], v.status);
    var p := ParseStatus(v.status);
    assert p.Some? ==> p.value in [Active, Maintenance, Inactive];
    assert status.Success? ==> p == Some(status.value) by {
      if status.Success? {
        StatusNamesRoundTrip(status.value, v.status);
      }
    }
    if name.Success? && kind.Success? && status.Success? then
      Success(AssetPatch(Some(name.value), Some(kind.value), Some(status.value)))
    else
      Failure(IssuesOf(name) + IssuesOf(kind) + IssuesOf(status))
  }

  /** Maintenance is accepted on edit, where creation refuses it; the other two pass both. */
  lemma StatusDomains(buildingId: Id, name: string, kind: string, st: Status)
    requires |name| >= 1 && |kind| >= 1
    ensures Validate(Values(name, Some(kind), st.Name())).Success?
    ensures AssetCreateForm.Validate(buildingId, AssetCreateForm.Values(name, kind, st.Name())).Success? <==> st != Maintenance
  {
    StatusNamesRoundTrip(st, st.Name());
  }

  /** An asset stored without a type cannot be saved until a type is typed in. */
  lemma UntypedAssetBlocks(a: Asset)
    requires a.assetType.None?
    ensures Validate(Reset(a)).Failure?
    ensures Issue("type", NullType) in Validate(Reset(a)).error
  {
  }

  /**
   * Saving the form untouched, for an asset whose name and type are not empty and whose status is
   * one of the three, rewrites the row with the values it already holds.
   */
  lemma UntouchedSaveIsNoOp(a: Asset)
    requires |a.name| >= 1 && a.assetType.Some? && |a.assetType.value| >= 1 && ParseStatus(a.status).Some?
    ensures Validate(Reset(a)).Success?
    ensures PatchedAsset(a, Validate(Reset(a)).value) == a
  {
    var p := Validate(Reset(a)).value;
    assert p.status.value.Name() == a.status;
  }

  /**
   * Saving the form. An invalid form sends nothing; otherwise the route's asset is patched with all
   * three fields. Success invalidates the asset entry and the building's asset list.
   */
  method Submit(store: Store, cache: QueryCache, assetId: Id, buildingId: Id, v: Values, o: StoreOutcome)
    returns (r: Submission)
    modifies store, cache
    ensures Validate(v).Failure? ==>
      r == Invalid(Validate(v).error) && store.Snapshot() == old(store.Snapshot()) &&
      cache.cached == old(cache.cached) && cache.stale == old(cache.stale)
    ensures Validate(v).Success? ==>
      store.Snapshot() == Attempt(old(store.Snapshot()), o, PatchAsset(old(store.Snapshot()), assetId, Validate(v).value)).db &&
      cache.cached == old(cache.cached) &&
      (o.Ok? ==> (r == Saved &&
        cache.stale == Invalidated(old(cache.cached), old(cache.stale), InvalidationKeys(EditAsset(assetId, buildingId))))) &&
      (o.Err? ==> (r == Failed(UpdateFailed) && cache.stale == old(cache.stale)))
    ensures old(store.Consistent()) ==> store.Consistent()
    ensures old(cache.Valid()) ==> cache.Valid()
  {
    var checked := Validate(v);
    if checked.Failure? {
      return Invalid(checked.error);
    }
    var out := store.UpdateAsset(assetId, checked.value, o);
    if out.Ok? {
      cache.InvalidateEach(InvalidationKeys(EditAsset(assetId, buildingId)));
      r := Saved;
    } else {
      r := Failed(UpdateFailed);
    }
  }

  /** A successful edit refreshes the asset's own page and its building's asset list. */
  lemma EditRefreshes(assetId: string, buildingId: string, v: View)
    ensures Refreshes(EditAsset(assetId, buildingId), v) <==>
      AssetsOf(v, buildingId) || (v == AssetView(Some(assetId)) && assetId != "")
  {
    RefreshedViews(EditAsset(assetId, buildingId), v);
  }
}
