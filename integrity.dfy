/**
 * Referential integrity of the three tables under every store step, and what the two cascades
 * delete, keep and leave behind when they stop early or are run again.
 */
module Integrity {
  import opened Wrappers
  import opened Seqs
  import opened Records
  import opened Tables

  // ---------------------------------------------------------------- single steps

  /** Deleting assets never breaks integrity: assets are leaves. */
  lemma DeleteAssetsKeepsValid(db: Db, ids: seq<Id>)
    requires Valid(db)
    ensures Valid(DeleteAssetsIn(db, ids))
  {
    FilterDistinct(db.assets, (a: Asset) => a.buildingId !in ids, AssetKey);
  }

  /** Deleting one asset row never breaks integrity. */
  lemma DeleteAssetRowKeepsValid(db: Db, id: Id)
    requires Valid(db)
    ensures Valid(DeleteAssetRows(db, id))
  {
    FilterDistinct(db.assets, (a: Asset) => a.id != id, AssetKey);
  }

  /** Deleting a customer's buildings keeps integrity once no asset refers to any of them. */
  lemma DeleteBuildingsKeepsValid(db: Db, customerId: Id)
    requires Valid(db)
    requires forall a :: a in db.assets ==> a.buildingId !in OwnedBuildingIds(db, customerId)
    ensures Valid(DeleteBuildingsOf(db, customerId))
  {
    var r := DeleteBuildingsOf(db, customerId);
    FilterDistinct(db.buildings, (b: Building) => b.customerId != customerId, BuildingKey);
    forall a | a in r.assets ensures a.buildingId in BuildingIds(r) {
      var b :| b in db.buildings && b.id == a.buildingId;
      assert b in r.buildings;
    }
  }

  /** Deleting a building row keeps integrity once no asset refers to it. */
  lemma DeleteBuildingRowKeepsValid(db: Db, id: Id)
    requires Valid(db)
    requires forall a :: a in db.assets ==> a.buildingId != id
    ensures Valid(DeleteBuildingRows(db, id))
  {
    var r := DeleteBuildingRows(db, id);
    FilterDistinct(db.buildings, (b: Building) => b.id != id, BuildingKey);
    forall a | a in r.assets ensures a.buildingId in BuildingIds(r) {
      var b :| b in db.buildings && b.id == a.buildingId;
      assert b in r.buildings;
    }
  }

  /** Deleting a customer row keeps integrity once no building refers to it. */
  lemma DeleteCustomerKeepsValid(db: Db, id: Id)
    requires Valid(db)
    requires forall b :: b in db.buildings ==> b.customerId != id
    ensures Valid(DeleteCustomerRows(db, id))
  {
    var r := DeleteCustomerRows(db, id);
    FilterDistinct(db.customers, (c: Customer) => c.id != id, CustomerKey);
    forall b | b in r.buildings ensures b.customerId in CustomerIds(r) {
      var c :| c in db.customers && c.id == b.customerId;
      assert c in r.customers;
    }
  }

  /**
   * Root-first deletion is what the leaf-to-root order avoids: deleting a customer row (plain
   * `deleteCustomer`) keeps integrity exactly when no building still refers to that customer.
   */
  lemma DeleteCustomerOrphansIff(db: Db, id: Id)
    requires NoOrphans(db)
    ensures NoOrphans(DeleteCustomerRows(db, id)) <==> forall b :: b in db.buildings ==> b.customerId != id
  {
    var r := DeleteCustomerRows(db, id);
    if forall b :: b in db.buildings ==> b.customerId != id {
      forall b | b in r.buildings ensures b.customerId in CustomerIds(r) {
        var c :| c in db.customers && c.id == b.customerId;
        assert c in r.customers;
      }
    } else {
      var b :| b in db.buildings && b.customerId == id;
      assert b.customerId !in CustomerIds(r);
    }
  }

  /** Likewise, deleting a building row keeps integrity exactly when no asset still refers to it. */
  lemma DeleteBuildingOrphansIff(db: Db, id: Id)
    requires NoOrphans(db)
    ensures NoOrphans(DeleteBuildingRows(db, id)) <==> forall a :: a in db.assets ==> a.buildingId != id
  {
    var r := DeleteBuildingRows(db, id);
    if forall a :: a in db.assets ==> a.buildingId != id {
      forall a | a in r.assets ensures a.buildingId in BuildingIds(r) {
        var b :| b in db.buildings && b.id == a.buildingId;
        assert b in r.buildings;
      }
    } else {
      var a :| a in db.assets && a.buildingId == id;
      assert a.buildingId !in BuildingIds(r);
    }
  }

  /** Inserting a customer keeps integrity (the store refuses a duplicate id). */
  lemma InsertCustomerKeepsValid(db: Db, name: string, id: Id, now: nat, o: StoreOutcome)
    requires Valid(db)
    ensures Valid(InsertCustomer(db, name, id, now, o).db)
  {
    if InsertCustomer(db, name, id, now, o).outcome.Ok? {
      var c := Customer(id, name, now);
      var r := db.(customers := db.customers + [c]);
      AppendDistinct(db.customers, c, CustomerKey);
      assert CustomerIds(db) <= CustomerIds(r) by {
        forall x | x in CustomerIds(db) ensures x in CustomerIds(r) {
          var y :| y in db.customers && y.id == x;
          assert y in r.customers;
        }
      }
    }
  }

  /** Inserting a building keeps integrity (the store refuses a duplicate id or an unknown customer). */
  lemma InsertBuildingKeepsValid(db: Db, input: NewBuilding, id: Id, now: nat, o: StoreOutcome)
    requires Valid(db)
    ensures Valid(InsertBuilding(db, input, id, now, o).db)
  {
    if InsertBuilding(db, input, id, now, o).outcome.Ok? {
      var b := BuildingRow(input, id, now);
      var r := db.(buildings := db.buildings + [b]);
      AppendDistinct(db.buildings, b, BuildingKey);
      forall a | a in r.assets ensures a.buildingId in BuildingIds(r) {
        var y :| y in db.buildings && y.id == a.buildingId;
        assert y in r.buildings;
      }
    }
  }

  /** Inserting an asset keeps integrity (the store refuses a duplicate id or an unknown building). */
  lemma InsertAssetKeepsValid(db: Db, input: NewAsset, id: Id, now: nat, o: StoreOutcome)
    requires Valid(db)
    ensures Valid(InsertAsset(db, input, id, now, o).db)
  {
    if InsertAsset(db, input, id, now, o).outcome.Ok? {
      var a := AssetRow(input, id, now);
      AppendDistinct(db.assets, a, AssetKey);
    }
  }

  /** Renaming a customer keeps integrity: ids are untouched. */
  lemma RenameCustomerKeepsValid(db: Db, id: Id, name: string)
    requires Valid(db)
    ensures Valid(RenameCustomer(db, id, name))
  {
    var f := (c: Customer) => if c.id == id then c.(name := name) else c;
    var r := RenameCustomer(db, id, name);
    MapDistinct(db.customers, f, CustomerKey);
    forall b | b in r.buildings ensures b.customerId in CustomerIds(r) {
      var c :| c in db.customers && c.id == b.customerId;
      var i :| 0 <= i < |db.customers| && db.customers[i] == c;
      assert r.customers[i] in r.customers;
    }
  }

  /** Changing an asset's status, to any string, keeps integrity. */
  lemma SetAssetStatusKeepsValid(db: Db, id: Id, status: string)
    requires Valid(db)
    ensures Valid(SetAssetStatus(db, id, status))
  {
    MapDistinct(db.assets, (a: Asset) => if a.id == id then a.(status := status) else a, AssetKey);
  }

  /** Patching an asset keeps integrity: neither `id` nor `building_id` can be patched. */
  lemma PatchAssetKeepsValid(db: Db, id: Id, p: AssetPatch)
    requires Valid(db)
    ensures Valid(PatchAsset(db, id, p))
  {
    var r := PatchAsset(db, id, p);
    MapDistinct(db.assets, (a: Asset) => if a.id == id then PatchedAsset(a, p) else a, AssetKey);
    forall a | a in r.assets ensures a.buildingId in BuildingIds(r) {
      var i :| 0 <= i < |r.assets| && r.assets[i] == a;
      assert db.assets[i] in db.assets;
    }
  }

  /** Patching a building keeps integrity: neither `id` nor `customer_id` can be patched. */
  lemma PatchBuildingKeepsValid(db: Db, id: Id, p: BuildingPatch)
    requires Valid(db)
    ensures Valid(PatchBuilding(db, id, p))
  {
    var r := PatchBuilding(db, id, p);
    MapDistinct(db.buildings, (b: Building) => if b.id == id then PatchedBuilding(b, p) else b, BuildingKey);
    forall b | b in r.buildings ensures b.customerId in CustomerIds(r) {
      var i :| 0 <= i < |r.buildings| && r.buildings[i] == b;
      assert db.buildings[i] in db.buildings;
    }
    forall a | a in r.assets ensures a.buildingId in BuildingIds(r) {
      var b :| b in db.buildings && b.id == a.buildingId;
      var i :| 0 <= i < |db.buildings| && db.buildings[i] == b;
      assert r.buildings[i] in r.buildings;
    }
  }

  // ---------------------------------------------------------------- requests that match nothing

  /**
   * A filtered delete that matches no row succeeds and leaves the tables as they were; this is
   * what makes the cascades safe to re-run.
   */
  lemma DeleteNothingSucceeds(db: Db, id: Id, ids: seq<Id>)
    ensures id !in CustomerIds(db) ==> Attempt(db, Ok, DeleteCustomerRows(db, id)) == Run(db, Ok)
    ensures id !in BuildingIds(db) ==> Attempt(db, Ok, DeleteBuildingRows(db, id)) == Run(db, Ok)
    ensures OwnedBuildingIds(db, id) == {} ==> Attempt(db, Ok, DeleteBuildingsOf(db, id)) == Run(db, Ok)
    ensures id !in AssetIdsOf(db) ==> Attempt(db, Ok, DeleteAssetRows(db, id)) == Run(db, Ok)
    ensures (forall a :: a in db.assets ==> a.buildingId !in ids) ==> Attempt(db, Ok, DeleteAssetsIn(db, ids)) == Run(db, Ok)
  {
    if id !in CustomerIds(db) {
      FilterAll(db.customers, (c: Customer) => c.id != id);
    }
    if id !in BuildingIds(db) {
      FilterAll(db.buildings, (b: Building) => b.id != id);
    }
    if OwnedBuildingIds(db, id) == {} {
      forall b | b in db.buildings ensures b.customerId != id {
        assert b.customerId == id ==> b.id in OwnedBuildingIds(db, id);
      }
      FilterAll(db.buildings, (b: Building) => b.customerId != id);
    }
    if id !in AssetIdsOf(db) {
      FilterAll(db.assets, (a: Asset) => a.id != id);
    }
    if forall a :: a in db.assets ==> a.buildingId !in ids {
      FilterAll(db.assets, (a: Asset) => a.buildingId !in ids);
    }
  }

  /** A filtered update that matches no row succeeds and leaves the tables as they were. */
  lemma UpdateNothingSucceeds(db: Db, id: Id, name: string, status: string, ap: AssetPatch, bp: BuildingPatch)
    ensures id !in CustomerIds(db) ==> Attempt(db, Ok, RenameCustomer(db, id, name)) == Run(db, Ok)
    ensures id !in AssetIdsOf(db) ==> Attempt(db, Ok, SetAssetStatus(db, id, status)) == Run(db, Ok)
    ensures id !in AssetIdsOf(db) ==> Attempt(db, Ok, PatchAsset(db, id, ap)) == Run(db, Ok)
    ensures id !in BuildingIds(db) ==> Attempt(db, Ok, PatchBuilding(db, id, bp)) == Run(db, Ok)
  {
    if id !in CustomerIds(db) {
      var r := RenameCustomer(db, id, name);
      forall i | 0 <= i < |db.customers| ensures r.customers[i] == db.customers[i] {
        assert db.customers[i] in db.customers;
      }
    }
    if id !in AssetIdsOf(db) {
      var r := SetAssetStatus(db, id, status);
      var r' := PatchAsset(db, id, ap);
      forall i | 0 <= i < |db.assets| ensures r.assets[i] == db.assets[i] && r'.assets[i] == db.assets[i] {
        assert db.assets[i] in db.assets;
      }
    }
    if id !in BuildingIds(db) {
      var r := PatchBuilding(db, id, bp);
      forall i | 0 <= i < |db.buildings| ensures r.buildings[i] == db.buildings[i] {
        assert db.buildings[i] in db.buildings;
      }
    }
  }

  // ---------------------------------------------------------------- the customer cascade

  /** The states the customer cascade passes through, in order. */
  function AfterAssets(db: Db, customerId: Id): Db {
    var ids := BuildingIdsOf(db, customerId);
    if |ids| > 0 then DeleteAssetsIn(db, ids) else db
  }

  function AfterBuildings(db: Db, customerId: Id): Db {
    DeleteBuildingsOf(AfterAssets(db, customerId), customerId)
  }

  function AfterCustomer(db: Db, customerId: Id): Db {
    DeleteCustomerRows(AfterBuildings(db, customerId), customerId)
  }

  /** The customer's building ids depend on the buildings table alone. */
  lemma BuildingIdsOfReadsBuildings(d: Db, d': Db, customerId: Id)
    requires d.buildings == d'.buildings
    ensures BuildingIdsOf(d, customerId) == BuildingIdsOf(d', customerId)
  {
  }

  /** The first step's asset delete removes exactly the assets of the customer's buildings. */
  lemma AfterAssetsContents(db: Db, customerId: Id)
    ensures var d1 := AfterAssets(db, customerId);
      && d1.customers == db.customers && d1.buildings == db.buildings
      && forall a :: a in d1.assets <==> a in db.assets && a.buildingId !in OwnedBuildingIds(db, customerId)
  {
  }

  /**
   * Where the customer cascade stops: a failed listing or asset delete changes nothing, a failed
   * building delete leaves the state after the asset delete, a failed customer delete the state
   * after the building delete; a run that succeeds ends after the customer delete.
   */
  lemma CustomerCascadeStops(db: Db, customerId: Id, inject: Step -> StoreOutcome)
    ensures var r := CustomerCascade(db, customerId, inject);
      r.db == db || r.db == AfterAssets(db, customerId) || r.db == AfterBuildings(db, customerId)
      || r.db == AfterCustomer(db, customerId)
    ensures var r := CustomerCascade(db, customerId, inject);
      r.outcome.Ok? <==> r.db == AfterCustomer(db, customerId) && r.outcome == Ok
  {
    var r := CustomerCascade(db, customerId, inject);
    var ids := BuildingIdsOf(db, customerId);
    if inject(SelectBuildingIds).Err? {
      assert r.db == db;
    } else if |ids| > 0 && inject(DeleteAssetsOfBuildings).Err? {
      assert r.db == db;
    } else if inject(DeleteBuildingsOfCustomer).Err? {
      assert r.db == AfterAssets(db, customerId);
    } else if inject(DeleteCustomerRow).Err? {
      assert r.db == AfterBuildings(db, customerId);
    } else {
      assert r.db == AfterCustomer(db, customerId);
    }
  }

  /** Every intermediate state of the customer cascade satisfies the no-orphan invariant. */
  lemma CustomerCascadeStatesValid(db: Db, customerId: Id)
    requires Valid(db)
    ensures Valid(AfterAssets(db, customerId))
    ensures Valid(AfterBuildings(db, customerId))
    ensures Valid(AfterCustomer(db, customerId))
  {
    var ids := BuildingIdsOf(db, customerId);
    var d1 := AfterAssets(db, customerId);
    if |ids| > 0 {
      DeleteAssetsKeepsValid(db, ids);
    }
    AfterAssetsContents(db, customerId);
    assert OwnedBuildingIds(d1, customerId) == OwnedBuildingIds(db, customerId);
    DeleteBuildingsKeepsValid(d1, customerId);
    DeleteCustomerKeepsValid(AfterBuildings(db, customerId), customerId);
  }

  /**
   * The no-orphan invariant holds after the customer cascade, whether it completes or stops at any
   * step: the leaf-to-root order makes every prefix safe.
   */
  lemma CustomerCascadeKeepsValid(db: Db, customerId: Id, inject: Step -> StoreOutcome)
    requires Valid(db)
    ensures Valid(CustomerCascade(db, customerId, inject).db)
  {
    CustomerCascadeStops(db, customerId, inject);
    CustomerCascadeStatesValid(db, customerId);
  }

  /**
   * A successful customer cascade removes exactly the customer's subtree: the customer row, every
   * building that names the customer, and every asset of those buildings; every other row stays.
   */
  lemma CustomerCascadeRemovesSubtree(db: Db, customerId: Id, inject: Step -> StoreOutcome)
    requires CustomerCascade(db, customerId, inject).outcome.Ok?
    ensures var r := CustomerCascade(db, customerId, inject).db;
      && (forall c :: c in r.customers <==> c in db.customers && c.id != customerId)
      && (forall b :: b in r.buildings <==> b in db.buildings && b.customerId != customerId)
      && (forall a :: a in r.assets <==> a in db.assets && a.buildingId !in OwnedBuildingIds(db, customerId))
  {
    CustomerCascadeStops(db, customerId, inject);
    AfterAssetsContents(db, customerId);
  }

  /**
   * Other customers' rows survive the cascade, however far it gets: a building of another customer
   * stays, and so do its assets (building ids are a primary key).
   */
  lemma CustomerCascadeSparesOthers(db: Db, customerId: Id, inject: Step -> StoreOutcome, b: Building, a: Asset)
    requires Valid(db)
    requires b in db.buildings && b.customerId != customerId
    requires a in db.assets && a.buildingId == b.id
    ensures b in CustomerCascade(db, customerId, inject).db.buildings
    ensures a in CustomerCascade(db, customerId, inject).db.assets
  {
    CustomerCascadeStops(db, customerId, inject);
    AfterAssetsContents(db, customerId);
    if b.id in OwnedBuildingIds(db, customerId) {
      var b' :| b' in db.buildings && b'.customerId == customerId && b'.id == b.id;
      DistinctBySame(db.buildings, BuildingKey, b, b');
    }
  }

  /**
   * Failing at each step leaves a described state. In particular a failure of the building delete
   * leaves the customer and its buildings in place with their assets already gone, and a failure of
   * the customer delete leaves a customer row without buildings.
   */
  lemma CustomerCascadeFailures(db: Db, customerId: Id, inject: Step -> StoreOutcome)
    ensures var r := CustomerCascade(db, customerId, inject);
      inject(SelectBuildingIds).Err? ==> r == Run(db, inject(SelectBuildingIds))
    ensures var r := CustomerCascade(db, customerId, inject);
      inject(SelectBuildingIds).Ok? && OwnedBuildingIds(db, customerId) != {} && inject(DeleteAssetsOfBuildings).Err?
      ==> r == Run(db, inject(DeleteAssetsOfBuildings))
    ensures var r := CustomerCascade(db, customerId, inject);
      inject(SelectBuildingIds).Ok? && inject(DeleteAssetsOfBuildings).Ok? && inject(DeleteBuildingsOfCustomer).Err?
      ==> && r.outcome == inject(DeleteBuildingsOfCustomer)
          && r.db.customers == db.customers && r.db.buildings == db.buildings
          && (forall a :: a in r.db.assets <==> a in db.assets && a.buildingId !in OwnedBuildingIds(db, customerId))
    ensures var r := CustomerCascade(db, customerId, inject);
      inject(SelectBuildingIds).Ok? && inject(DeleteAssetsOfBuildings).Ok? && inject(DeleteBuildingsOfCustomer).Ok?
      && inject(DeleteCustomerRow).Err?
      ==> && r.outcome == inject(DeleteCustomerRow)
          && r.db.customers == db.customers
          && (forall b :: b in r.db.buildings <==> b in db.buildings && b.customerId != customerId)
  {
    var ids := BuildingIdsOf(db, customerId);
    if OwnedBuildingIds(db, customerId) != {} {
      var x :| x in OwnedBuildingIds(db, customerId);
      assert x in ids;
    }
    AfterAssetsContents(db, customerId);
  }

  /**
   * A customer without buildings gets no asset-delete request: the outcome of that step has no
   * effect on the run.
   */
  lemma CustomerCascadeSkipsEmptyAssetDelete(db: Db, customerId: Id, i1: Step -> StoreOutcome, i2: Step -> StoreOutcome)
    requires OwnedBuildingIds(db, customerId) == {}
    requires forall s :: s != DeleteAssetsOfBuildings ==> i1(s) == i2(s)
    ensures CustomerCascade(db, customerId, i1) == CustomerCascade(db, customerId, i2)
  {
    var ids := BuildingIdsOf(db, customerId);
    EmptyIffNoMember(ids);
    assert i1(SelectBuildingIds) == i2(SelectBuildingIds);
    assert i1(DeleteBuildingsOfCustomer) == i2(DeleteBuildingsOfCustomer);
    assert i1(DeleteCustomerRow) == i2(DeleteCustomerRow);
  }

  /** Once the asset delete has run, running it again deletes nothing. */
  lemma AfterAssetsIsFixed(db: Db, customerId: Id)
    ensures var d1 := AfterAssets(db, customerId);
      AfterAssets(d1, customerId) == d1
  {
    var ids := BuildingIdsOf(db, customerId);
    var d1 := AfterAssets(db, customerId);
    BuildingIdsOfReadsBuildings(d1, db, customerId);
    if |ids| > 0 {
      FilterIdempotent(db.assets, (a: Asset) => a.buildingId !in ids);
    }
  }

  /** Once the customer's buildings are gone, listing them finds none and deleting them matches nothing. */
  lemma NoBuildingsLeft(d: Db, customerId: Id)
    requires OwnedBuildingIds(d, customerId) == {}
    ensures AfterAssets(d, customerId) == d
  {
    var ids := BuildingIdsOf(d, customerId);
    EmptyIffNoMember(ids);
  }

  /** After the building delete, the asset and building deletes match nothing. */
  lemma AfterBuildingsIsFixed(db: Db, customerId: Id)
    ensures var d2 := AfterBuildings(db, customerId);
      AfterBuildings(d2, customerId) == d2
  {
    var d1 := AfterAssets(db, customerId);
    var d2 := AfterBuildings(db, customerId);
    NoBuildingsLeft(d2, customerId);
    FilterIdempotent(d1.buildings, (b: Building) => b.customerId != customerId);
  }

  /** After the customer delete, all three deletes match nothing. */
  lemma AfterCustomerIsFixed(db: Db, customerId: Id)
    ensures var d3 := AfterCustomer(db, customerId);
      AfterCustomer(d3, customerId) == d3
  {
    var d1 := AfterAssets(db, customerId);
    var d2 := AfterBuildings(db, customerId);
    var d3 := AfterCustomer(db, customerId);
    NoBuildingsLeft(d3, customerId);
    FilterIdempotent(d1.buildings, (b: Building) => b.customerId != customerId);
    FilterIdempotent(d2.customers, (c: Customer) => c.id != customerId);
  }

  /** Running the customer cascade again after it succeeded changes nothing, whatever the second run's requests do. */
  lemma CustomerCascadeIdempotent(db: Db, customerId: Id, i1: Step -> StoreOutcome, i2: Step -> StoreOutcome)
    requires CustomerCascade(db, customerId, i1).outcome.Ok?
    ensures var d := CustomerCascade(db, customerId, i1).db;
      CustomerCascade(d, customerId, i2).db == d
  {
    CustomerCascadeStops(db, customerId, i1);
    var d := AfterCustomer(db, customerId);
    AfterCustomerIsFixed(db, customerId);
    NoBuildingsLeft(d, customerId);
    AfterBuildingsIsFixed(d, customerId);
    CustomerCascadeStops(d, customerId, i2);
  }

  /**
   * Re-issuing the cascade after a failure is a safe recovery: a fault-free second run ends where a
   * fault-free first run would have ended.
   */
  lemma CustomerCascadeRetry(db: Db, customerId: Id, inject: Step -> StoreOutcome)
    ensures var d := CustomerCascade(db, customerId, inject).db;
      CustomerCascade(d, customerId, NoFaults).db == CustomerCascade(db, customerId, NoFaults).db
  {
    CustomerCascadeStops(db, customerId, inject);
    CustomerCascadeStops(db, customerId, NoFaults);
    var d := CustomerCascade(db, customerId, inject).db;
    CustomerCascadeStops(d, customerId, NoFaults);
    var d1 := AfterAssets(db, customerId);
    var d2 := AfterBuildings(db, customerId);
    var d3 := AfterCustomer(db, customerId);
    if d == d1 {
      AfterAssetsIsFixed(db, customerId);
      assert AfterCustomer(d1, customerId) == d3;
    } else if d == d2 {
      NoBuildingsLeft(d2, customerId);
      AfterBuildingsIsFixed(db, customerId);
      assert AfterCustomer(d2, customerId) == d3;
    } else if d == d3 {
      AfterCustomerIsFixed(db, customerId);
    }
  }

  // ---------------------------------------------------------------- the building cascade

  /** The state after the building cascade's asset delete, and after its building delete. */
  function AfterBuildingAssets(db: Db, buildingId: Id): Db {
    DeleteAssetsIn(db, [buildingId])
  }

  function AfterBuilding(db: Db, buildingId: Id): Db {
    DeleteBuildingRows(AfterBuildingAssets(db, buildingId), buildingId)
  }

  /**
   * Where the building cascade stops: a failed asset delete changes nothing (the building and its
   * assets stay), a failed building delete leaves the building without assets.
   */
  lemma BuildingCascadeStops(db: Db, buildingId: Id, inject: Step -> StoreOutcome)
    ensures var r := BuildingCascade(db, buildingId, inject);
      inject(DeleteAssetsOfBuilding).Err? ==> r == Run(db, inject(DeleteAssetsOfBuilding))
    ensures var r := BuildingCascade(db, buildingId, inject);
      inject(DeleteAssetsOfBuilding).Ok? && inject(DeleteBuildingRow).Err?
      ==> r == Run(AfterBuildingAssets(db, buildingId), inject(DeleteBuildingRow))
    ensures var r := BuildingCascade(db, buildingId, inject);
      r.outcome.Ok? <==> r == Run(AfterBuilding(db, buildingId), Ok)
  {
  }

  /** The building cascade keeps the no-orphan invariant, whether it completes or stops after its first step. */
  lemma BuildingCascadeKeepsValid(db: Db, buildingId: Id, inject: Step -> StoreOutcome)
    requires Valid(db)
    ensures Valid(BuildingCascade(db, buildingId, inject).db)
  {
    BuildingCascadeStops(db, buildingId, inject);
    DeleteAssetsKeepsValid(db, [buildingId]);
    DeleteBuildingRowKeepsValid(AfterBuildingAssets(db, buildingId), buildingId);
  }

  /**
   * A successful building cascade removes exactly the building and its assets; however far it
   * gets, no customer, no other building and no other building's asset is touched.
   */
  lemma BuildingCascadeRemovesSubtree(db: Db, buildingId: Id, inject: Step -> StoreOutcome)
    ensures var r := BuildingCascade(db, buildingId, inject);
      && r.db.customers == db.customers
      && (forall b :: b in db.buildings && b.id != buildingId ==> b in r.db.buildings)
      && (forall a :: a in db.assets && a.buildingId != buildingId ==> a in r.db.assets)
    ensures var r := BuildingCascade(db, buildingId, inject);
      r.outcome.Ok? ==>
        && (forall b :: b in r.db.buildings <==> b in db.buildings && b.id != buildingId)
        && (forall a :: a in r.db.assets <==> a in db.assets && a.buildingId != buildingId)
  {
    BuildingCascadeStops(db, buildingId, inject);
  }

  /** Running the building cascade again after it succeeded changes nothing, whatever the second run's requests do. */
  lemma BuildingCascadeIdempotent(db: Db, buildingId: Id, i1: Step -> StoreOutcome, i2: Step -> StoreOutcome)
    requires BuildingCascade(db, buildingId, i1).outcome.Ok?
    ensures var d := BuildingCascade(db, buildingId, i1).db;
      BuildingCascade(d, buildingId, i2).db == d
  {
    BuildingCascadeStops(db, buildingId, i1);
    var d1 := AfterBuildingAssets(db, buildingId);
    var d := AfterBuilding(db, buildingId);
    FilterIdempotent(db.assets, (a: Asset) => a.buildingId !in [buildingId]);
    FilterIdempotent(d1.buildings, (b: Building) => b.id != buildingId);
    assert AfterBuildingAssets(d, buildingId) == d;
    assert AfterBuilding(d, buildingId) == d;
    BuildingCascadeStops(d, buildingId, i2);
  }

  /** Re-issuing the building cascade after a failure ends where a fault-free first run would have ended. */
  lemma BuildingCascadeRetry(db: Db, buildingId: Id, inject: Step -> StoreOutcome)
    ensures var d := BuildingCascade(db, buildingId, inject).db;
      BuildingCascade(d, buildingId, NoFaults).db == BuildingCascade(db, buildingId, NoFaults).db
  {
    BuildingCascadeStops(db, buildingId, inject);
    BuildingCascadeStops(db, buildingId, NoFaults);
    var d := BuildingCascade(db, buildingId, inject).db;
    BuildingCascadeStops(d, buildingId, NoFaults);
    var d1 := AfterBuildingAssets(db, buildingId);
    if d == d1 {
      FilterIdempotent(db.assets, (a: Asset) => a.buildingId !in [buildingId]);
      assert AfterBuildingAssets(d1, buildingId) == d1;
    } else if d != db {
      BuildingCascadeIdempotent(db, buildingId, inject, NoFaults);
    }
  }
}
