/**
 * The store as three in-memory tables, and every remote request of the query modules as a pure
 * step on them. A step either succeeds and changes the tables as its filter says, or fails and
 * changes nothing. The two cascades are sequences of such steps with an early exit.
 */
module Tables {
  import opened Wrappers
  import opened Seqs
  import opened Records

  /** Why a store request failed. */
  datatype StoreError =
    | RequestFailed(message: string)  // transport or server failure, injected by the caller of the model
    | DuplicateKey                    // an insert reused an existing primary key
    | MissingParent                   // an insert referenced a parent row that does not exist
    | NotSingleRow(rows: nat)         // `.single()` found zero rows or more than one
    | InvalidRange                    // `.range(from, to)` with a negative offset or length

  type StoreOutcome = Outcome<StoreError>

  /** The three tables. */
  datatype Db = Db(customers: seq<Customer>, buildings: seq<Building>, assets: seq<Asset>)

  /** The state after a step and the outcome the step reported. */
  datatype Run = Run(db: Db, outcome: StoreOutcome)

  function CustomerIds(db: Db): set<Id> {
    set c | c in db.customers :: c.id
  }

  function BuildingIds(db: Db): set<Id> {
    set b | b in db.buildings :: b.id
  }

  /** The ids of the buildings `customerId` owns. */
  function OwnedBuildingIds(db: Db, customerId: Id): set<Id> {
    set b | b in db.buildings && b.customerId == customerId :: b.id
  }

  /** Referential integrity: every building's customer exists, and every asset's building exists. */
  predicate NoOrphans(db: Db) {
    (forall b :: b in db.buildings ==> b.customerId in CustomerIds(db))
    && (forall a :: a in db.assets ==> a.buildingId in BuildingIds(db))
  }

  /** Primary keys: no id appears on two rows of one table. */
  ghost predicate UniqueKeys(db: Db) {
    DistinctBy(db.customers, CustomerKey)
    && DistinctBy(db.buildings, BuildingKey)
    && DistinctBy(db.assets, AssetKey)
  }

  /** The table invariant every operation must keep. */
  ghost predicate Valid(db: Db) {
    NoOrphans(db) && UniqueKeys(db)
  }

  /** A request with outcome `o` whose success would leave `after`: a failed request changes nothing. */
  function Attempt(db: Db, o: StoreOutcome, after: Db): Run {
    if o.Ok? then Run(after, Ok) else Run(db, o)
  }

  /** `.single()`: exactly one matching row, or an error naming how many there were. */
  function Single<T>(rows: seq<T>): Result<T, StoreError> {
    if |rows| == 1 then Success(rows[0]) else Failure(NotSingleRow(|rows|))
  }

  // ---------------------------------------------------------------- filtered deletes

  /** `from("customers").delete().eq("id", id)`. */
  function DeleteCustomerRows(db: Db, id: Id): (r: Db)
    ensures r.buildings == db.buildings && r.assets == db.assets
    ensures forall c :: c in r.customers <==> c in db.customers && c.id != id
  {
    db.(customers := Filter(db.customers, (c: Customer) => c.id != id))
  }

  /** `from("buildings").delete().eq("customer_id", customerId)`. */
  function DeleteBuildingsOf(db: Db, customerId: Id): (r: Db)
    ensures r.customers == db.customers && r.assets == db.assets
    ensures forall b :: b in r.buildings <==> b in db.buildings && b.customerId != customerId
  {
    db.(buildings := Filter(db.buildings, (b: Building) => b.customerId != customerId))
  }

  /** `from("buildings").delete().eq("id", id)`. */
  function DeleteBuildingRows(db: Db, id: Id): (r: Db)
    ensures r.customers == db.customers && r.assets == db.assets
    ensures forall b :: b in r.buildings <==> b in db.buildings && b.id != id
  {
    db.(buildings := Filter(db.buildings, (b: Building) => b.id != id))
  }

  /** `from("assets").delete().in("building_id", ids)`; `.eq("building_id", b)` is the case `ids == [b]`. */
  function DeleteAssetsIn(db: Db, ids: seq<Id>): (r: Db)
    ensures r.customers == db.customers && r.buildings == db.buildings
    ensures forall a :: a in r.assets <==> a in db.assets && a.buildingId !in ids
  {
    db.(assets := Filter(db.assets, (a: Asset) => a.buildingId !in ids))
  }

  /** `from("assets").delete().eq("id", id)`. */
  function DeleteAssetRows(db: Db, id: Id): (r: Db)
    ensures r.customers == db.customers && r.buildings == db.buildings
    ensures forall a :: a in r.assets <==> a in db.assets && a.id != id
  {
    db.(assets := Filter(db.assets, (a: Asset) => a.id != id))
  }

  // ---------------------------------------------------------------- inserts

  /** The input of `createBuilding`. */
  datatype NewBuilding = NewBuilding(
    customerId: Id, name: string, address: Option<string>, status: BuildingStatus, squareFootage: Option<real>)

  /** The input of `createAsset`. */
  datatype NewAsset = NewAsset(buildingId: Id, name: string, assetType: Option<string>, status: Status)

  /**
   * `from("customers").insert({ name })`: the store assigns `id` and the creation time `now`.
   * The store refuses a duplicate primary key.
   */
  function InsertCustomer(db: Db, name: string, id: Id, now: nat, o: StoreOutcome): (r: Run)
    ensures r.outcome.Ok? <==> o.Ok? && id !in CustomerIds(db)
    ensures r.db == if r.outcome.Ok? then db.(customers := db.customers + [Customer(id, name, now)]) else db
  {
    if o.Err? then Run(db, o)
    else if id in CustomerIds(db) then Run(db, Err(DuplicateKey))
    else Run(db.(customers := db.customers + [Customer(id, name, now)]), Ok)
  }

  /** `from("buildings").insert(input)`; the store refuses a duplicate key or an unknown customer. */
  function InsertBuilding(db: Db, input: NewBuilding, id: Id, now: nat, o: StoreOutcome): (r: Run)
    ensures r.outcome.Ok? <==> o.Ok? && id !in BuildingIds(db) && input.customerId in CustomerIds(db)
    ensures r.db == if r.outcome.Ok? then db.(buildings := db.buildings + [BuildingRow(input, id, now)]) else db
  {
    if o.Err? then Run(db, o)
    else if id in BuildingIds(db) then Run(db, Err(DuplicateKey))
    else if input.customerId !in CustomerIds(db) then Run(db, Err(MissingParent))
    else Run(db.(buildings := db.buildings + [BuildingRow(input, id, now)]), Ok)
  }

  /** The row an inserted building becomes: the columns the input does not name (description) are null. */
  function BuildingRow(input: NewBuilding, id: Id, now: nat): (b: Building)
    ensures b.id == id && b.customerId == input.customerId && b.createdAt == now && b.description == None
  {
    Building(id, input.customerId, input.name, input.address, None, input.status, input.squareFootage, now)
  }

  /** `from("assets").insert(data)`; the store refuses a duplicate key or an unknown building. */
  function InsertAsset(db: Db, input: NewAsset, id: Id, now: nat, o: StoreOutcome): (r: Run)
    ensures r.outcome.Ok? <==> o.Ok? && id !in AssetIdsOf(db) && input.buildingId in BuildingIds(db)
    ensures r.db == if r.outcome.Ok? then db.(assets := db.assets + [AssetRow(input, id, now)]) else db
  {
    if o.Err? then Run(db, o)
    else if id in AssetIdsOf(db) then Run(db, Err(DuplicateKey))
    else if input.buildingId !in BuildingIds(db) then Run(db, Err(MissingParent))
    else Run(db.(assets := db.assets + [AssetRow(input, id, now)]), Ok)
  }

  function AssetIdsOf(db: Db): set<Id> {
    set a | a in db.assets :: a.id
  }

  /** The row an inserted asset becomes. */
  function AssetRow(input: NewAsset, id: Id, now: nat): (a: Asset)
    ensures a.id == id && a.buildingId == input.buildingId && a.createdAt == now
    ensures a.status == input.status.Name()
  {
    Asset(id, input.buildingId, input.name, input.assetType, input.status.Name(), now)
  }

  // ---------------------------------------------------------------- filtered updates

  /** `from("customers").update({ name }).eq("id", id)`. */
  function RenameCustomer(db: Db, id: Id, name: string): (r: Db)
    ensures r.buildings == db.buildings && r.assets == db.assets
    ensures |r.customers| == |db.customers|
    ensures forall i :: 0 <= i < |db.customers| ==>
      r.customers[i] == if db.customers[i].id == id then db.customers[i].(name := name) else db.customers[i]
  {
    db.(customers := Map(db.customers, (c: Customer) => if c.id == id then c.(name := name) else c))
  }

  /** `from("assets").update({ status }).eq("id", id)`: any string is stored; nothing checks the domain. */
  function SetAssetStatus(db: Db, id: Id, status: string): (r: Db)
    ensures r.customers == db.customers && r.buildings == db.buildings
    ensures |r.assets| == |db.assets|
    ensures forall i :: 0 <= i < |db.assets| ==>
      r.assets[i] == if db.assets[i].id == id then db.assets[i].(status := status) else db.assets[i]
  {
    db.(assets := Map(db.assets, (a: Asset) => if a.id == id then a.(status := status) else a))
  }

  /** The fields `updateAsset` may send; an absent field is left as it is. */
  datatype AssetPatch = AssetPatch(name: Option<string>, assetType: Option<string>, status: Option<Status>)

  /** An asset with the supplied fields of `p` written over it. */
  function PatchedAsset(a: Asset, p: AssetPatch): (r: Asset)
    ensures r.id == a.id && r.buildingId == a.buildingId && r.createdAt == a.createdAt
    ensures r.name == p.name.GetOr(a.name)
    ensures r.assetType == (if p.assetType.Some? then p.assetType else a.assetType)
    ensures r.status == (if p.status.Some? then p.status.value.Name() else a.status)
  {
    a.(name := p.name.GetOr(a.name),
       assetType := if p.assetType.Some? then p.assetType else a.assetType,
       status := if p.status.Some? then p.status.value.Name() else a.status)
  }

  /** `from("assets").update(data).eq("id", id)`. */
  function PatchAsset(db: Db, id: Id, p: AssetPatch): (r: Db)
    ensures r.customers == db.customers && r.buildings == db.buildings
    ensures |r.assets| == |db.assets|
    ensures forall i :: 0 <= i < |db.assets| ==>
      r.assets[i] == if db.assets[i].id == id then PatchedAsset(db.assets[i], p) else db.assets[i]
  {
    db.(assets := Map(db.assets, (a: Asset) => if a.id == id then PatchedAsset(a, p) else a))
  }

  /** The fields an edit of a building may send; `customer_id` is not among them. */
  datatype BuildingPatch = BuildingPatch(
    name: Option<string>,
    description: Option<string>,
    address: Option<string>,
    status: Option<BuildingStatus>,
    squareFootage: Option<real>)

  /** A building with the supplied fields of `p` written over it. */
  function PatchedBuilding(b: Building, p: BuildingPatch): (r: Building)
    ensures r.id == b.id && r.customerId == b.customerId && r.createdAt == b.createdAt
    ensures r.name == p.name.GetOr(b.name) && r.status == p.status.GetOr(b.status)
    ensures r.description == (if p.description.Some? then p.description else b.description)
    ensures r.address == (if p.address.Some? then p.address else b.address)
    ensures r.squareFootage == (if p.squareFootage.Some? then p.squareFootage else b.squareFootage)
  {
    b.(name := p.name.GetOr(b.name),
       description := if p.description.Some? then p.description else b.description,
       address := if p.address.Some? then p.address else b.address,
       status := p.status.GetOr(b.status),
       squareFootage := if p.squareFootage.Some? then p.squareFootage else b.squareFootage)
  }

  /** `from("buildings").update(patch).eq("id", id)`. */
  function PatchBuilding(db: Db, id: Id, p: BuildingPatch): (r: Db)
    ensures r.customers == db.customers && r.assets == db.assets
    ensures |r.buildings| == |db.buildings|
    ensures forall i :: 0 <= i < |db.buildings| ==>
      r.buildings[i] == if db.buildings[i].id == id then PatchedBuilding(db.buildings[i], p) else db.buildings[i]
  {
    db.(buildings := Map(db.buildings, (b: Building) => if b.id == id then PatchedBuilding(b, p) else b))
  }

  // ---------------------------------------------------------------- cascades

  /** The remote requests the two cascades issue, each of which may be made to fail. */
  datatype Step =
    | SelectBuildingIds          // customer cascade, step 1: buildings of the customer
    | DeleteAssetsOfBuildings    // customer cascade, step 2: assets of those buildings
    | DeleteBuildingsOfCustomer  // customer cascade, step 3
    | DeleteCustomerRow          // customer cascade, step 4
    | DeleteAssetsOfBuilding     // building cascade, step 1
    | DeleteBuildingRow          // building cascade, step 2

  /** The injection under which every request succeeds. */
  function NoFaults(s: Step): StoreOutcome { Ok }

  /** `buildings.map(b => b.id)` for `select("id").eq("customer_id", customerId)`. */
  function BuildingIdsOf(db: Db, customerId: Id): (ids: seq<Id>)
    ensures forall x :: x in ids <==> x in OwnedBuildingIds(db, customerId)
  {
    var owned := Filter(db.buildings, (b: Building) => b.customerId == customerId);
    var ids := Map(owned, BuildingKey);
    assert forall x :: x in ids ==> x in OwnedBuildingIds(db, customerId) by {
      forall x | x in ids ensures x in OwnedBuildingIds(db, customerId) {
        var i :| 0 <= i < |ids| && ids[i] == x;
        assert owned[i] in owned;
      }
    }
    assert forall x :: x in OwnedBuildingIds(db, customerId) ==> x in ids by {
      forall x | x in OwnedBuildingIds(db, customerId) ensures x in ids {
        var b :| b in db.buildings && b.customerId == customerId && b.id == x;
        assert b in owned;
        var i :| 0 <= i < |owned| && owned[i] == b;
        assert ids[i] == x;
      }
    }
    ids
  }

  /**
   * `deleteCustomerCascade(customerId)`: list the customer's building ids; if there are any, delete
   * their assets; delete the customer's buildings; delete the customer. The first failing request
   * ends the run with its error, and what earlier steps deleted stays deleted.
   */
  function CustomerCascade(db: Db, customerId: Id, inject: Step -> StoreOutcome): Run {
    if inject(SelectBuildingIds).Err? then Run(db, inject(SelectBuildingIds))
    else
      var ids := BuildingIdsOf(db, customerId);
      var r1 := if |ids| > 0 then Attempt(db, inject(DeleteAssetsOfBuildings), DeleteAssetsIn(db, ids))
                else Run(db, Ok);
      if r1.outcome.Err? then r1
      else
        var r2 := Attempt(r1.db, inject(DeleteBuildingsOfCustomer), DeleteBuildingsOf(r1.db, customerId));
        if r2.outcome.Err? then r2
        else Attempt(r2.db, inject(DeleteCustomerRow), DeleteCustomerRows(r2.db, customerId))
  }

  /**
   * `deleteBuildingCascade(buildingId)`: delete the building's assets, then the building. A failing
   * asset delete leaves the building in place.
   */
  function BuildingCascade(db: Db, buildingId: Id, inject: Step -> StoreOutcome): Run {
    var r1 := Attempt(db, inject(DeleteAssetsOfBuilding), DeleteAssetsIn(db, [buildingId]));
    if r1.outcome.Err? then r1
    else Attempt(r1.db, inject(DeleteBuildingRow), DeleteBuildingRows(r1.db, buildingId))
  }
}
