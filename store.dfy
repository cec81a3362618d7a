/**
 * The hosted database as the client sees it: three tables that the query functions of
 * `customers/queries.ts`, `buildings/queries.ts` and `assets/queries.ts` change one request at a
 * time. Each request's outcome is a parameter (`o`, or `inject` for the steps of a cascade); the
 * state a request leaves is the matching step function of `Tables`, and the proofs about those
 * functions live in `Integrity`.
 */
module StoreClient {
  import opened Wrappers
  import opened Seqs
  import opened Records
  import opened Tables
  import opened Integrity

  class Store {
    var customers: seq<Customer>
    var buildings: seq<Building>
    var assets: seq<Asset>

    /** The three tables as one value. */
    function Snapshot(): Db
      reads this
    {
      Db(customers, buildings, assets)
    }

    /** No orphan rows and no duplicate primary keys. */
    ghost predicate Consistent()
      reads this
    {
      Valid(Snapshot())
    }

    constructor (db: Db)
      ensures Snapshot() == db
    {
      customers := db.customers;
      buildings := db.buildings;
      assets := db.assets;
    }

    /** Sends one request whose success would leave `after`; a failed request changes nothing. */
    method Request(o: StoreOutcome, after: Db) returns (out: StoreOutcome)
      modifies this
      ensures out == o
      ensures Snapshot() == Attempt(old(Snapshot()), o, after).db
    {
      if o.Ok? {
        customers, buildings, assets := after.customers, after.buildings, after.assets;
      }
      out := o;
    }

    /** Sends an insert, whose outcome the store itself may turn into a refusal. */
    method Write(r: Run) returns (out: StoreOutcome)
      modifies this
      ensures out == r.outcome && Snapshot() == r.db
    {
      customers, buildings, assets := r.db.customers, r.db.buildings, r.db.assets;
      out := r.outcome;
    }

    // ------------------------------------------------------------ customers/queries.ts

    /** `createCustomer(name)`. */
    method CreateCustomer(name: string, id: Id, now: nat, o: StoreOutcome) returns (out: StoreOutcome)
      modifies this
      ensures Run(Snapshot(), out) == InsertCustomer(old(Snapshot()), name, id, now, o)
      ensures old(Consistent()) ==> Consistent()
    {
      if Consistent() {
        InsertCustomerKeepsValid(Snapshot(), name, id, now, o);
      }
      out := Write(InsertCustomer(Snapshot(), name, id, now, o));
    }

    /** `updateCustomer(id, { name })`. */
    method UpdateCustomer(id: Id, name: string, o: StoreOutcome) returns (out: StoreOutcome)
      modifies this
      ensures Run(Snapshot(), out) == Attempt(old(Snapshot()), o, RenameCustomer(old(Snapshot()), id, name))
      ensures old(Consistent()) ==> Consistent()
    {
      if Consistent() {
        RenameCustomerKeepsValid(Snapshot(), id, name);
      }
      out := Request(o, RenameCustomer(Snapshot(), id, name));
    }

    /**
     * `deleteCustomer(customerId)`: the customer row alone. It keeps integrity only for a customer
     * without buildings (`Integrity.DeleteCustomerOrphansIff`).
     */
    method DeleteCustomer(customerId: Id, o: StoreOutcome) returns (out: StoreOutcome)
      modifies this
      ensures Run(Snapshot(), out) == Attempt(old(Snapshot()), o, DeleteCustomerRows(old(Snapshot()), customerId))
      ensures old(Consistent()) && (forall b :: b in old(buildings) ==> b.customerId != customerId) ==> Consistent()
    {
      if Consistent() && forall b :: b in buildings ==> b.customerId != customerId {
        DeleteCustomerKeepsValid(Snapshot(), customerId);
      }
      out := Request(o, DeleteCustomerRows(Snapshot(), customerId));
    }

    /** `select("id").eq("customer_id", customerId)`, mapped to the ids. */
    method ListBuildingIds(customerId: Id, o: StoreOutcome) returns (r: Result<seq<Id>, StoreError>)
      ensures o.Ok? ==> r == Success(BuildingIdsOf(Snapshot(), customerId))
      ensures o.Err? ==> r == Failure(o.error)
    {
      if o.Err? {
        return Failure(o.error);
      }
      r := Success(BuildingIdsOf(Snapshot(), customerId));
    }

    /**
     * `deleteCustomerCascade(customerId)`: assets of the customer's buildings, then the buildings,
     * then the customer, stopping at the first failed request.
     */
    method DeleteCustomerCascade(customerId: Id, inject: Step -> StoreOutcome) returns (out: StoreOutcome)
      modifies this
      ensures Run(Snapshot(), out) == CustomerCascade(old(Snapshot()), customerId, inject)
      ensures old(Consistent()) ==> Consistent()
    {
      if Consistent() {
        CustomerCascadeKeepsValid(Snapshot(), customerId, inject);
      }
      out := CustomerCascadeRequests(customerId, inject);
    }

    /** The four requests of the customer cascade, one after another. */
    method CustomerCascadeRequests(customerId: Id, inject: Step -> StoreOutcome) returns (out: StoreOutcome)
      modifies this
      ensures Run(Snapshot(), out) == CustomerCascade(old(Snapshot()), customerId, inject)
    {
      ghost var db0 := Snapshot();
      var listed := ListBuildingIds(customerId, inject(Step.SelectBuildingIds));
      if listed.Failure? {
        return Err(listed.error);
      }
      var ids := listed.value;
      ghost var r1 := if |ids| > 0 then Attempt(db0, inject(DeleteAssetsOfBuildings), DeleteAssetsIn(db0, ids)) else Run(db0, Ok);
      if |ids| > 0 {
        out := Request(inject(DeleteAssetsOfBuildings), DeleteAssetsIn(Snapshot(), ids));
        if out.Err? {
          assert Run(Snapshot(), out) == r1;
          return;
        }
      }
      assert Snapshot() == r1.db;
      ghost var r2 := Attempt(r1.db, inject(DeleteBuildingsOfCustomer), DeleteBuildingsOf(r1.db, customerId));
      out := Request(inject(DeleteBuildingsOfCustomer), DeleteBuildingsOf(Snapshot(), customerId));
      assert Run(Snapshot(), out) == r2;
      if out.Err? {
        return;
      }
      out := Request(inject(DeleteCustomerRow), DeleteCustomerRows(Snapshot(), customerId));
    }

    // ------------------------------------------------------------ buildings/queries.ts

    /** `createBuilding(input)`. */
    method CreateBuilding(input: NewBuilding, id: Id, now: nat, o: StoreOutcome) returns (out: StoreOutcome)
      modifies this
      ensures Run(Snapshot(), out) == InsertBuilding(old(Snapshot()), input, id, now, o)
      ensures old(Consistent()) ==> Consistent()
    {
      if Consistent() {
        InsertBuildingKeepsValid(Snapshot(), input, id, now, o);
      }
      out := Write(InsertBuilding(Snapshot(), input, id, now, o));
    }

    /** `updateBuilding(id, patch)`, a filtered update on the building's id. */
    method UpdateBuilding(id: Id, patch: BuildingPatch, o: StoreOutcome) returns (out: StoreOutcome)
      modifies this
      ensures Run(Snapshot(), out) == Attempt(old(Snapshot()), o, PatchBuilding(old(Snapshot()), id, patch))
      ensures old(Consistent()) ==> Consistent()
    {
      if Consistent() {
        PatchBuildingKeepsValid(Snapshot(), id, patch);
      }
      out := Request(o, PatchBuilding(Snapshot(), id, patch));
    }

    /** `deleteBuildingCascade(buildingId)`: the building's assets, then the building. */
    method DeleteBuildingCascade(buildingId: Id, inject: Step -> StoreOutcome) returns (out: StoreOutcome)
      modifies this
      ensures Run(Snapshot(), out) == BuildingCascade(old(Snapshot()), buildingId, inject)
      ensures old(Consistent()) ==> Consistent()
    {
      if Consistent() {
        BuildingCascadeKeepsValid(Snapshot(), buildingId, inject);
      }
      out := Request(inject(DeleteAssetsOfBuilding), DeleteAssetsIn(Snapshot(), [buildingId]));
      if out.Err? {
        return;
      }
      out := Request(inject(DeleteBuildingRow), DeleteBuildingRows(Snapshot(), buildingId));
    }

    // ------------------------------------------------------------ assets/queries.ts

    /** `createAsset(data)`. */
    method CreateAsset(input: NewAsset, id: Id, now: nat, o: StoreOutcome) returns (out: StoreOutcome)
      modifies this
      ensures Run(Snapshot(), out) == InsertAsset(old(Snapshot()), input, id, now, o)
      ensures old(Consistent()) ==> Consistent()
    {
      if Consistent() {
        InsertAssetKeepsValid(Snapshot(), input, id, now, o);
      }
      out := Write(InsertAsset(Snapshot(), input, id, now, o));
    }

    /** `updateAssetStatus(assetId, status)`. */
    method UpdateAssetStatus(assetId: Id, status: string, o: StoreOutcome) returns (out: StoreOutcome)
      modifies this
      ensures Run(Snapshot(), out) == Attempt(old(Snapshot()), o, SetAssetStatus(old(Snapshot()), assetId, status))
      ensures old(Consistent()) ==> Consistent()
    {
      if Consistent() {
        SetAssetStatusKeepsValid(Snapshot(), assetId, status);
      }
      out := Request(o, SetAssetStatus(Snapshot(), assetId, status));
    }

    /** `updateAsset(assetId, data)`. */
    method UpdateAsset(assetId: Id, patch: AssetPatch, o: StoreOutcome) returns (out: StoreOutcome)
      modifies this
      ensures Run(Snapshot(), out) == Attempt(old(Snapshot()), o, PatchAsset(old(Snapshot()), assetId, patch))
      ensures old(Consistent()) ==> Consistent()
    {
      if Consistent() {
        PatchAssetKeepsValid(Snapshot(), assetId, patch);
      }
      out := Request(o, PatchAsset(Snapshot(), assetId, patch));
    }

    /** `deleteAsset(assetId)`. */
    method DeleteAsset(assetId: Id, o: StoreOutcome) returns (out: StoreOutcome)
      modifies this
      ensures Run(Snapshot(), out) == Attempt(old(Snapshot()), o, DeleteAssetRows(old(Snapshot()), assetId))
      ensures old(Consistent()) ==> Consistent()
    {
      if Consistent() {
        DeleteAssetRowKeepsValid(Snapshot(), assetId);
      }
      out := Request(o, DeleteAssetRows(Snapshot(), assetId));
    }
  }
}
