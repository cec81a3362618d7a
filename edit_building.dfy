/**
 * The building edit modal: the form is reset from the building on open, validated with a trimmed
 * name, and sent as a filtered update of that building's row.
 */
module EditBuildingModal {
  import opened Wrappers
  import opened Text
  import opened Records
  import opened Tables
  import opened StoreClient
  import opened Cache
  import opened Invalidation
  import opened ErrorMessages
  import opened Forms
  import opened SquareFootage
  import BuildingCreateForm

  const NameRequired := "Building name is required"
  const MustBePositive := "Must be positive"
  const UpdateFailed := "Failed to update building"

  datatype Values = Values(name: string, description: string, address: string, status: string, squareFootage: FieldValue)

  /**
   * The reset on open: null description and address become empty strings, and the area input shows
   * the stored number or nothing. The schema reads that input through the intended conversion, so a
   * null area is `undefined`.
   */
  function Reset(b: Building): (v: Values)
    ensures v.name == b.name && v.status == b.status.Name()
    ensures v.description == b.description.GetOr("") && v.address == b.address.GetOr("")
    ensures v.squareFootage == if b.squareFootage.Some? then Finite(b.squareFootage.value) else Undef
  {
    Values(b.name, b.description.GetOr(""), b.address.GetOr(""), b.status.Name(), Converted(Shown(b.squareFootage)))
  }

  /** The reset values as the schema reads them with the area conversion as written. */
  function ResetAsWritten(b: Building): Values {
    Reset(b).(squareFootage := ConvertedAsWritten(Shown(b.squareFootage)))
  }

  /**
   * As written, the empty area input of a building stored without a square footage reads as `NaN`,
   * so saving the modal untouched is refused with the number issue, whatever the other fields hold.
   */
  lemma NullAreaSaveRejectedAsWritten(b: Building)
    requires b.squareFootage.None?
    ensures Validate(ResetAsWritten(b)).Failure?
    ensures Issue("square_footage", NotANumber) in Validate(ResetAsWritten(b)).error
  {
    var v := ResetAsWritten(b);
    var name := TrimmedNonEmpty("name", NameRequired, v.name);
    var status := BuildingCreateForm.BuildingStatusOf(v.status);
    var area := Positive("square_footage", MustBePositive, v.squareFootage);
    assert IssuesOf(area) == [Issue("square_footage", NotANumber)];
    assert Validate(v).error == IssuesOf(name) + IssuesOf(status) + IssuesOf(area);
  }

  /** For a building stored with a square footage both conversions give the same form, so the untouched save is the same. */
  lemma StoredAreaAgrees(b: Building)
    requires b.squareFootage.Some?
    ensures ResetAsWritten(b) == Reset(b)
  {
  }

  /**
   * The schema, then the payload `{ ...data }`: every form field is sent except an absent area, and
   * the owner column is not among them.
   */
  function Validate(v: Values): (r: Checked<BuildingPatch>)
    ensures r.Success? <==>
      !Blank(v.name) && (v.status == "Active" || v.status == "Inactive") &&
      (v.squareFootage == Undef || (v.squareFootage.Finite? && v.squareFootage.r > 0.0))
    ensures r.Success? ==>
      r.value.name == Some(Trim(v.name)) && r.value.description == Some(v.description) &&
      r.value.address == Some(v.address) && r.value.status.Some? && r.value.status.value.Name() == v.status &&
      r.value.squareFootage == (if v.squareFootage.Finite? then Some(v.squareFootage.r) else None)
  {
    var name := TrimmedNonEmpty("name", NameRequired, v.name);
    var status := BuildingCreateForm.BuildingStatusOf(v.status);
    var area := Positive("square_footage", MustBePositive, v.squareFootage);
    if name.Success? && status.Success? && area.Success? then
      Success(BuildingPatch(Some(name.value), Some(v.description), Some(v.address), Some(status.value), area.value))
    else
      Failure(IssuesOf(name) + IssuesOf(status) + IssuesOf(area))
  }

  /**
   * Saving the modal untouched, for a building whose name is already trimmed and whose area is
   * absent or positive, passes the schema and changes the row only by turning a null description or
   * address into an empty string. The owner, the id and the creation time never change.
   */
  lemma UntouchedSave(b: Building)
    requires !Blank(b.name) && Trim(b.name) == b.name
    requires b.squareFootage.None? || b.squareFootage.value > 0.0
    ensures Validate(Reset(b)).Success?
    ensures PatchedBuilding(b, Validate(Reset(b)).value) ==
      b.(description := Some(b.description.GetOr("")), address := Some(b.address.GetOr("")))
  {
    ResetValidates(b);
    PatchOfOwnFields(b, OwnPatch(b));
  }

  /** The patch holding a row's own values, with null text columns as empty strings. */
  function OwnPatch(b: Building): BuildingPatch {
    BuildingPatch(Some(b.name), Some(b.description.GetOr("")), Some(b.address.GetOr("")), Some(b.status), b.squareFootage)
  }

  /** The untouched form of a row with a trimmed, non-blank name and a positive or null area validates to the row's own values. */
  lemma ResetValidates(b: Building)
    requires !Blank(b.name) && Trim(b.name) == b.name
    requires b.squareFootage.None? || b.squareFootage.value > 0.0
    ensures Validate(Reset(b)) == Success(OwnPatch(b))
  {
    TrimmedNameKept(b.name);
    StatusParsesBack(b.status);
    AreaKept(b.squareFootage);
  }

  /** A trimmed, non-blank name passes the name rule unchanged. */
  lemma TrimmedNameKept(name: string)
    requires !Blank(name) && Trim(name) == name
    ensures TrimmedNonEmpty("name", NameRequired, name) == Success(name)
  {
  }

  /** A building's own status parses back to itself. */
  lemma StatusParsesBack(st: BuildingStatus)
    ensures BuildingCreateForm.BuildingStatusOf(st.Name()) == Success(st)
  {
    var r := BuildingCreateForm.BuildingStatusOf(st.Name());
    assert st == Active || st == Inactive;
    SameName(r.value, st);
  }

  /** A positive or null area, as the reset shows it, passes the area rule unchanged. */
  lemma AreaKept(area: Option<real>)
    requires area.None? || area.value > 0.0
    ensures Positive("square_footage", MustBePositive, if area.Some? then Finite(area.value) else Undef) == Success(area)
  {
  }

  lemma ResetPasses(b: Building)
    requires !Blank(b.name)
    requires b.squareFootage.None? || b.squareFootage.value > 0.0
    ensures Validate(Reset(b)).Success?
  {
    var v := Reset(b);
    assert v.status == "Active" || v.status == "Inactive" by {
      assert b.status == Active || b.status == Inactive;
    }
    assert v.squareFootage == Undef || (v.squareFootage.Finite? && v.squareFootage.r > 0.0);
  }

  lemma PatchOfOwnFields(b: Building, p: BuildingPatch)
    requires p.name == Some(b.name) && p.status == Some(b.status) && p.squareFootage == b.squareFootage
    requires p.description == Some(b.description.GetOr("")) && p.address == Some(b.address.GetOr(""))
    ensures PatchedBuilding(b, p) == b.(description := p.description, address := p.address)
  {
  }

  lemma SameName(s1: Status, s2: Status)
    requires s1.Name() == s2.Name()
    ensures s1 == s2
  {
  }

  /**
   * Saving the modal. An invalid form sends nothing; otherwise the building's row is patched.
   * Success invalidates the building overview with every building list, the owner's building list
   * and the building entry. A failure shows `ErrorText` of the thrown value, which for a store error
   * is the fixed text, because the thrown value is not an `Error`.
   */
  method Submit(store: Store, cache: QueryCache, building: Building, v: Values, o: StoreOutcome)
    returns (r: Submission)
    modifies store, cache
    ensures Validate(v).Failure? ==>
      r == Invalid(Validate(v).error) && store.Snapshot() == old(store.Snapshot()) &&
      cache.cached == old(cache.cached) && cache.stale == old(cache.stale)
    ensures Validate(v).Success? ==>
      store.Snapshot() == Attempt(old(store.Snapshot()), o, PatchBuilding(old(store.Snapshot()), building.id, Validate(v).value)).db &&
      cache.cached == old(cache.cached) &&
      (o.Ok? ==> (r == Saved &&
        cache.stale == Invalidated(old(cache.cached), old(cache.stale), InvalidationKeys(EditBuilding(building.id, building.customerId))))) &&
      (o.Err? ==> (r == Failed(ErrorText(Thrown(o.error))) && cache.stale == old(cache.stale)))
    ensures Validate(v).Success? && o.Err? ==> r == Failed(UpdateFailed)
    ensures old(store.Consistent()) ==> store.Consistent()
    ensures old(cache.Valid()) ==> cache.Valid()
  {
    var checked := Validate(v);
    if checked.Failure? {
      return Invalid(checked.error);
    }
    var out := store.UpdateBuilding(building.id, checked.value, o);
    if out.Ok? {
      cache.InvalidateEach(InvalidationKeys(EditBuilding(building.id, building.customerId)));
      r := Saved;
    } else {
      r := Failed(ErrorText(Thrown(out.error)));
    }
  }

  /** `error instanceof Error ? error.message : "Failed to update building"`. */
  function ErrorText(e: JsValue): string {
    if e.JsError? then e.message else UpdateFailed
  }

  /**
   * A failed store request throws a plain object, not an `Error`, so the modal shows its fixed
   * text and never the store's message, which `getErrorMessage` would have read.
   */
  lemma ErrorTextOfStore(e: StoreError)
    ensures ErrorText(Thrown(e)) == UpdateFailed
    ensures GetErrorMessage(Thrown(e)) == StoreMessage(e)
  {
  }

  /**
   * A successful edit refreshes the overview and every enabled building list, whoever owns the
   * building, and no asset view, customer view or dashboard.
   */
  lemma EditRefreshes(b: string, c: string, v: View)
    ensures Refreshes(EditBuilding(b, c), v) <==> v == BuildingsOverview || (v.BuildingsOfCustomer? && Present(v.customerId))
  {
    RefreshedViews(EditBuilding(b, c), v);
  }
}
