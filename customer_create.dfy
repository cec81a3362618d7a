/** The customer creation form: a trimmed, non-empty name, then `createCustomer` and one invalidation. */
module CustomerCreateForm {
  import opened Wrappers
  import opened Text
  import opened Records
  import opened Tables
  import opened StoreClient
  import opened Cache
  import opened Invalidation
  import opened ErrorMessages
  import opened Forms

  const NameRequired := "Customer name is required"

  /** The form's schema: the name is trimmed and must not then be empty. */
  function Validate(name: string): Checked<string> {
    TrimmedNonEmpty("name", NameRequired, name)
  }

  /**
   * Submitting the form. An invalid name sends nothing; otherwise the store inserts a row carrying
   * only the trimmed name, and only a successful insert invalidates the customer list. A failed
   * insert shows the store's message.
   */
  method Submit(store: Store, cache: QueryCache, name: string, id: Id, now: nat, o: StoreOutcome)
    returns (r: Submission)
    modifies store, cache
    ensures Validate(name).Failure? ==>
      r == Invalid(Validate(name).error) && store.Snapshot() == old(store.Snapshot()) &&
      cache.cached == old(cache.cached) && cache.stale == old(cache.stale)
    ensures Validate(name).Success? ==>
      var run := InsertCustomer(old(store.Snapshot()), Validate(name).value, id, now, o);
      store.Snapshot() == run.db && cache.cached == old(cache.cached) &&
      (run.outcome.Ok? ==> (r == Saved &&
        cache.stale == Invalidated(old(cache.cached), old(cache.stale), InvalidationKeys(CreateCustomer)))) &&
      (run.outcome.Err? ==> (r == Failed(GetErrorMessage(Thrown(run.outcome.error))) && cache.stale == old(cache.stale)))
    ensures old(store.Consistent()) ==> store.Consistent()
    ensures old(cache.Valid()) ==> cache.Valid()
  {
    var checked := Validate(name);
    if checked.Failure? {
      return Invalid(checked.error);
    }
    var out := store.CreateCustomer(checked.value, id, now, o);
    if out.Ok? {
      cache.InvalidateEach(InvalidationKeys(CreateCustomer));
      r := Saved;
    } else {
      r := Failed(GetErrorMessage(Thrown(out.error)));
    }
  }

  /**
   * A successful creation refreshes the customer list and nothing else: no building list, asset
   * list, asset page or dashboard is marked stale.
   */
  lemma CreationRefreshesOnlyTheList(v: View)
    ensures Refreshes(CreateCustomer, v) <==> v == CustomersView
  {
    RefreshedViews(CreateCustomer, v);
  }
}
