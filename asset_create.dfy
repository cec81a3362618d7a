/** The asset creation form: name and type required, Active or Inactive only, under the route's building. */
module AssetCreateForm {
  import opened Wrappers
  import opened Records
  import opened Tables
  import opened StoreClient
  import opened Cache
  import opened Invalidation
  import opened Forms

  const NameRequired := "Asset name is required"
  const TypeRequired := "Asset type is required"
  const CreateFailed := "Failed to create asset. Please try again."

  datatype Values = Values(name: string, assetType: string, status: string)

  /** A fresh form: status preselected as Active. */
  function Defaults(): (v: Values)
    ensures v.status == Active.Name()
  {
    Values("", "", "Active")
  }

  /** The schema, then the payload `{ building_id: buildingId, ...data }`. */
  function Validate(buildingId: Id, v: Values): (r: Checked<NewAsset>)
    ensures r.Success? <==> |v.name| >= 1 && |v.assetType| >= 1 && (v.status == "Active" || v.status == "Inactive")
    ensures r.Success? ==>
      r.value.buildingId == buildingId && r.value.name == v.name && r.value.assetType == Some(v.assetType) &&
      r.value.status.Name() == v.status && r.value.status != Maintenance
  {
    var name := NonEmpty("name", NameRequired, v.name);
    var kind := NonEmpty("type", TypeRequired, v.assetType);
    var status := OneOf("status", [Active, Inactive], v.status);
    assert v.status == "Active" ==> Active in [Active, Inactive];
    assert v.status == "Inactive" ==> Inactive in [Active, Inactive];
    if name.Success? && kind.Success? && status.Success? then
      Success(NewAsset(buildingId, name.value, Some(kind.value), status.value))
    else
      Failure(IssuesOf(name) + IssuesOf(kind) + IssuesOf(status))
  }

  /** No asset is created in Maintenance: that status fails the schema whatever the other fields hold. */
  lemma NoMaintenanceAtCreation(buildingId: Id, v: Values)
    ensures Validate(buildingId, v.(status := Maintenance.Name())).Failure?
  {
  }

  /**
   * Submitting the form. An invalid form sends nothing; otherwise one asset is inserted under the
   * route's building, and only success invalidates that building's asset list.
   */
  method Submit(store: Store, cache: QueryCache, buildingId: Id, v: Values, id: Id, now: nat, o: StoreOutcome)
    returns (r: Submission)
    modifies store, cache
    ensures Validate(buildingId, v).Failure? ==>
      r == Invalid(Validate(buildingId, v).error) && store.Snapshot() == old(store.Snapshot()) &&
      cache.cached == old(cache.cached) && cache.stale == old(cache.stale)
    ensures Validate(buildingId, v).Success? ==>
      var run := InsertAsset(old(store.Snapshot()), Validate(buildingId, v).value, id, now, o);
      store.Snapshot() == run.db && cache.cached == old(cache.cached) &&
      (run.outcome.Ok? ==> (r == Saved &&
        cache.stale == Invalidated(old(cache.cached), old(cache.stale), InvalidationKeys(CreateAsset(buildingId))))) &&
      (run.outcome.Err? ==> (r == Failed(CreateFailed) && cache.stale == old(cache.stale)))
    ensures old(store.Consistent()) ==> store.Consistent()
    ensures old(cache.Valid()) ==> cache.Valid()
  {
    var checked := Validate(buildingId, v);
    if checked.Failure? {
      return Invalid(checked.error);
    }
    var out := store.CreateAsset(checked.value, id, now, o);
    if out.Ok? {
      cache.InvalidateEach(InvalidationKeys(CreateAsset(buildingId)));
      r := Saved;
    } else {
      r := Failed(CreateFailed);
    }
  }

  /**
   * A successful creation refreshes the building's asset list (and an overview filtered by a status
   * spelled like the building id), but neither the unfiltered overview nor the dashboard.
   */
  lemma CreationRefreshes(buildingId: string, v: View)
    ensures Refreshes(CreateAsset(buildingId), v) <==> AssetsOf(v, buildingId)
    ensures !Refreshes(CreateAsset(buildingId), AssetsOverview(None)) && !Refreshes(CreateAsset(buildingId), DashboardView)
  {
    RefreshedViews(CreateAsset(buildingId), v);
    WhatNothingRefreshes(CreateAsset(buildingId), v);
  }
}
