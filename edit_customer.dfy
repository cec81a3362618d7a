/** The customer edit modal: the same trimmed-name schema, `updateCustomer`, and three invalidations. */
module EditCustomerModal {
  import opened Wrappers
  import opened Text
  import opened Records
  import opened Tables
  import opened StoreClient
  import opened Cache
  import opened Invalidation
  import opened Forms

  const NameRequired := "Customer name is required"
  const UpdateFailed := "Failed to update customer. Please try again."

  function Validate(name: string): Checked<string> {
    TrimmedNonEmpty("name", NameRequired, name)
  }

  /** The value the form starts from. */
  function Defaults(c: Customer): (name: string)
    ensures name == c.name
  {
    c.name
  }

  /**
   * Saving the modal. An invalid name sends nothing; otherwise the row with the customer's id gets
   * the trimmed name and no other column changes. Success invalidates the customer list, the
   * customer entry and the customer's building list; failure shows the fixed text.
   */
  method Submit(store: Store, cache: QueryCache, customer: Customer, name: string, o: StoreOutcome)
    returns (r: Submission)
    modifies store, cache
    ensures Validate(name).Failure? ==>
      r == Invalid(Validate(name).error) && store.Snapshot() == old(store.Snapshot()) &&
      cache.cached == old(cache.cached) && cache.stale == old(cache.stale)
    ensures Validate(name).Success? ==>
      store.Snapshot() == Attempt(old(store.Snapshot()), o, RenameCustomer(old(store.Snapshot()), customer.id, Validate(name).value)).db &&
      cache.cached == old(cache.cached) &&
      (o.Ok? ==> (r == Saved &&
        cache.stale == Invalidated(old(cache.cached), old(cache.stale), InvalidationKeys(EditCustomer(customer.id))))) &&
      (o.Err? ==> (r == Failed(UpdateFailed) && cache.stale == old(cache.stale)))
    ensures old(store.Consistent()) ==> store.Consistent()
    ensures old(cache.Valid()) ==> cache.Valid()
  {
    var checked := Validate(name);
    if checked.Failure? {
      return Invalid(checked.error);
    }
    var out := store.UpdateCustomer(customer.id, checked.value, o);
    if out.Ok? {
      cache.InvalidateEach(InvalidationKeys(EditCustomer(customer.id)));
      r := Saved;
    } else {
      r := Failed(UpdateFailed);
    }
  }

  /**
   * Saving the modal untouched, for a customer whose stored name is already trimmed and not blank,
   * passes the schema and rewrites the row it was opened for with the value it already holds.
   */
  lemma UntouchedSaveIsNoOp(db: Db, c: Customer)
    requires forall i :: 0 <= i < |db.customers| && db.customers[i].id == c.id ==> db.customers[i] == c
    requires !Blank(c.name) && Trim(c.name) == c.name
    ensures Validate(Defaults(c)).Success?
    ensures RenameCustomer(db, c.id, Validate(Defaults(c)).value) == db
  {
    assert Validate(c.name).value == c.name;
    RenameToSameName(db, c);
  }

  lemma RenameToSameName(db: Db, c: Customer)
    requires forall i :: 0 <= i < |db.customers| && db.customers[i].id == c.id ==> db.customers[i] == c
    ensures RenameCustomer(db, c.id, c.name) == db
  {
    var r := RenameCustomer(db, c.id, c.name);
    assert r.customers == db.customers;
  }

  /**
   * A successful edit refreshes the customer list and that customer's building list. The building
   * overview, every asset view and the dashboard stay as they were.
   */
  lemma EditRefreshes(id: string, v: View)
    ensures Refreshes(EditCustomer(id), v) <==> v == CustomersView || (v == BuildingsOfCustomer(Some(id)) && Truthy(id))
  {
    RefreshedViews(EditCustomer(id), v);
  }
}
