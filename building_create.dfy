/**
 * The building creation form: a non-empty (untrimmed) name, an optional address, Active or
 * Inactive, an optional positive square footage; then `createBuilding` under the route's customer.
 */
module BuildingCreateForm {
  import opened Wrappers
  import opened Text
  import opened Records
  import opened Tables
  import opened StoreClient
  import opened Cache
  import opened Invalidation
  import opened Forms
  import opened SquareFootage

  const NameRequired := "Building name is required"
  const MustBePositive := "Must be a positive number"
  const CreateFailed := "Failed to create building. Please try again."

  /** The form's fields as the schema receives them. */
  datatype Values = Values(name: string, address: string, status: string, squareFootage: FieldValue)

  /**
   * A fresh form: status preselected as Active, and the empty square-footage input through the
   * intended conversion, which reads it as absent.
   */
  function Defaults(): (v: Values)
    ensures v.status == Active.Name() && v.squareFootage == Converted(Cleared) == Undef
  {
    Values("", "", "Active", Converted(Cleared))
  }

  /** `Active` or `Inactive`, the only statuses a building takes. */
  function BuildingStatusOf(s: string): (r: Checked<BuildingStatus>)
    ensures r.Success? <==> s == "Active" || s == "Inactive"
    ensures r.Success? ==> r.value.Name() == s
    ensures r.Failure? ==> r.error == [Issue("status", InvalidEnum)]
  {
    var c := OneOf("status", [Active, Inactive], s);
    assert s == "Active" ==> Active in [Active, Inactive];
    assert s == "Inactive" ==> Inactive in [Active, Inactive];
    if c.Success? then Success(c.value) else Failure(c.error)
  }

  /**
   * The schema, then the payload `{ customer_id: customerId, ...data }`. The issues come in field
   * order; a valid form yields exactly the insert input built from its fields.
   */
  function Validate(customerId: Id, v: Values): (r: Checked<NewBuilding>)
    ensures r.Success? <==>
      |v.name| >= 1 && (v.status == "Active" || v.status == "Inactive") &&
      (v.squareFootage == Undef || (v.squareFootage.Finite? && v.squareFootage.r > 0.0))
    ensures r.Success? ==>
      r.value.customerId == customerId && r.value.name == v.name && r.value.address == Some(v.address) &&
      r.value.status.Name() == v.status &&
      r.value.squareFootage == (if v.squareFootage.Finite? then Some(v.squareFootage.r) else None)
  {
    var name := NonEmpty("name", NameRequired, v.name);
    var status := BuildingStatusOf(v.status);
    var area := Positive("square_footage", MustBePositive, v.squareFootage);
    if name.Success? && status.Success? && area.Success? then
      Success(NewBuilding(customerId, name.value, Some(v.address), status.value, area.value))
    else
      Failure(IssuesOf(name) + IssuesOf(status) + IssuesOf(area))
  }

  /**
   * As written, the square-footage input holds `NaN` whenever it is empty, untouched or cleared, so
   * the form is refused with the number issue whatever its other fields hold: no building without a
   * square footage can be created.
   */
  lemma EmptyAreaRejectedAsWritten(customerId: Id, v: Values)
    requires v.squareFootage == ConvertedAsWritten(Cleared)
    ensures Validate(customerId, v).Failure?
    ensures Issue("square_footage", NotANumber) in Validate(customerId, v).error
  {
    var name := NonEmpty("name", NameRequired, v.name);
    var status := BuildingStatusOf(v.status);
    var area := Positive("square_footage", MustBePositive, v.squareFootage);
    assert IssuesOf(area) == [Issue("square_footage", NotANumber)];
    assert Validate(customerId, v).error == IssuesOf(name) + IssuesOf(status) + IssuesOf(area);
  }

  /**
   * With the intended conversion, an empty square-footage input is no obstacle: the form passes
   * exactly when its name and status do, and sends no square footage.
   */
  lemma EmptyAreaPassesCorrected(customerId: Id, v: Values)
    requires v.squareFootage == Converted(Cleared)
    ensures Validate(customerId, v).Success? <==> |v.name| >= 1 && (v.status == "Active" || v.status == "Inactive")
    ensures Validate(customerId, v).Success? ==> Validate(customerId, v).value.squareFootage == None
  {
  }

  /** The name is not trimmed here: a name of spaces passes, unlike in the edit modal. */
  lemma SpacesPass(customerId: Id)
    ensures Validate(customerId, Values(" ", "", "Active", Undef)).Success?
    ensures Validate(customerId, Values(" ", "", "Active", Undef)).value.name == " "
  {
  }

  /**
   * Submitting the form. An invalid form sends nothing; otherwise one row is inserted under the
   * route's customer, and only success invalidates that customer's building list.
   */
  method Submit(store: Store, cache: QueryCache, customerId: Id, v: Values, id: Id, now: nat, o: StoreOutcome)
    returns (r: Submission)
    modifies store, cache
    ensures Validate(customerId, v).Failure? ==>
      r == Invalid(Validate(customerId, v).error) && store.Snapshot() == old(store.Snapshot()) &&
      cache.cached == old(cache.cached) && cache.stale == old(cache.stale)
    ensures Validate(customerId, v).Success? ==>
      var run := InsertBuilding(old(store.Snapshot()), Validate(customerId, v).value, id, now, o);
      store.Snapshot() == run.db && cache.cached == old(cache.cached) &&
      (run.outcome.Ok? ==> (r == Saved &&
        cache.stale == Invalidated(old(cache.cached), old(cache.stale), InvalidationKeys(CreateBuilding(customerId))))) &&
      (run.outcome.Err? ==> (r == Failed(CreateFailed) && cache.stale == old(cache.stale)))
    ensures old(store.Consistent()) ==> store.Consistent()
    ensures old(cache.Valid()) ==> cache.Valid()
  {
    var checked := Validate(customerId, v);
    if checked.Failure? {
      return Invalid(checked.error);
    }
    var out := store.CreateBuilding(checked.value, id, now, o);
    if out.Ok? {
      cache.InvalidateEach(InvalidationKeys(CreateBuilding(customerId)));
      r := Saved;
    } else {
      r := Failed(CreateFailed);
    }
  }

  /**
   * A successful creation refreshes that customer's building list only; the building overview and
   * the customer list (whose cards would count buildings) stay stale.
   */
  lemma CreationRefreshes(customerId: string, v: View)
    ensures Refreshes(CreateBuilding(customerId), v) <==> v == BuildingsOfCustomer(Some(customerId)) && Truthy(customerId)
    ensures !Refreshes(CreateBuilding(customerId), BuildingsOverview) && !Refreshes(CreateBuilding(customerId), CustomersView)
  {
    RefreshedViews(CreateBuilding(customerId), v);
    RefreshedViews(CreateBuilding(customerId), BuildingsOverview);
    RefreshedViews(CreateBuilding(customerId), CustomersView);
  }
}
