/**
 * The three record kinds of the ownership tree (customers own buildings, buildings own assets)
 * and the status values they carry.
 */
module Records {
  import opened Wrappers

  /** Store-assigned row identifiers are strings. */
  type Id = string

  /** The status values the schemas and record types name. */
  datatype Status = Active | Inactive | Maintenance {

    /** The string the store holds for the status. */
    function Name(): string {
      match this
      case Active => "Active"
      case Inactive => "Inactive"
      case Maintenance => "Maintenance"
    }
  }

  /** The status a stored string denotes, if any. */
  function ParseStatus(s: string): (r: Option<Status>)
    ensures r.Some? ==> r.value.Name() == s
  {
    if s == "Active" then Some(Active)
    else if s == "Inactive" then Some(Inactive)
    else if s == "Maintenance" then Some(Maintenance)
    else None
  }

  /** Status names and parsing are inverse: every status is named by exactly one string. */
  lemma StatusNamesRoundTrip(st: Status, s: string)
    ensures ParseStatus(st.Name()) == Some(st)
    ensures ParseStatus(s) == Some(st) <==> s == st.Name()
  {
  }

  /** A building is Active or Inactive; Maintenance is an asset-only status. */
  type BuildingStatus = s: Status | s != Maintenance witness Active

  /** A customer row: the root of the tree. */
  datatype Customer = Customer(id: Id, name: string, createdAt: nat)

  /** A building row; `customerId` names its owner, and the optional columns may hold null. */
  datatype Building = Building(
    id: Id,
    customerId: Id,
    name: string,
    address: Option<string>,
    description: Option<string>,
    status: BuildingStatus,
    squareFootage: Option<real>,
    createdAt: nat)

  /**
   * An asset row; `buildingId` names its building. The status column is a string: the record type
   * names three values, but `updateAssetStatus` will store any string it is given.
   */
  datatype Asset = Asset(
    id: Id,
    buildingId: Id,
    name: string,
    assetType: Option<string>,
    status: string,
    createdAt: nat)

  function CustomerKey(c: Customer): Id { c.id }
  function BuildingKey(b: Building): Id { b.id }
  function AssetKey(a: Asset): Id { a.id }

  function CustomerCreatedAt(c: Customer): nat { c.createdAt }
  function BuildingCreatedAt(b: Building): nat { b.createdAt }
  function AssetCreatedAt(a: Asset): nat { a.createdAt }
}
