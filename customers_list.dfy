/**
 * The customer list page: one card per customer with a building count, a delete button only for
 * customers without buildings, and a confirmation dialog driven by the selected id.
 */
module CustomersListView {
  import opened Wrappers
  import opened Text
  import opened Records
  import opened Tables
  import opened StoreClient
  import opened Cache
  import opened Invalidation
  import opened BuildingQueries

  /**
   * A customer as the list receives it. `buildings` is the embedded `buildings(count)` aggregate when
   * the read asks for one: absent, or a list of rows whose `count` may itself be absent.
   */
  datatype CustomerCard = CustomerCard(id: Id, name: string, buildings: Option<seq<Option<nat>>>)

  /** `customer.buildings?.[0]?.count ?? 0`. */
  function BuildingCount(card: CustomerCard): nat {
    if card.buildings.Some? && |card.buildings.value| > 0 then card.buildings.value[0].GetOr(0) else 0
  }

  /** The delete button is rendered. */
  predicate CanDelete(card: CustomerCard) {
    BuildingCount(card) == 0
  }

  /** The "{n} building(s)" line, shown only for a positive count. */
  function CountLabel(card: CustomerCard): Option<string> {
    var n := BuildingCount(card);
    if n > 0 then Some(NatToString(n) + " building(s)") else None
  }

  /** A card shows either the delete button or the building count, never both and never neither. */
  lemma DeleteOrCount(card: CustomerCard)
    ensures CanDelete(card) <==> CountLabel(card).None?
    ensures CountLabel(card).Some? ==> DigitsValue(DigitPrefix(CountLabel(card).value)) == BuildingCount(card)
  {
    var n := BuildingCount(card);
    if n > 0 {
      DigitPrefixOf(NatToString(n), " building(s)");
      NatToStringRoundTrip(n);
    }
  }

  /** A card whose aggregate counts the customer's buildings in `db`. */
  function CardWithCount(db: Db, c: Customer): CustomerCard {
    CustomerCard(c.id, c.name, Some([Some(|BuildingsOf(db, c.id)|)]))
  }

  /** A card without the aggregate, as a read of `select("*")` returns it. */
  function PlainCard(c: Customer): CustomerCard {
    CustomerCard(c.id, c.name, None)
  }

  /**
   * With the aggregate, delete is offered exactly for customers that own no building. Without it
   * the count reads as 0 and delete is offered for every customer.
   */
  lemma DeleteGate(db: Db, c: Customer)
    ensures CanDelete(CardWithCount(db, c)) <==> forall b :: b in db.buildings ==> b.customerId != c.id
    ensures CanDelete(PlainCard(c))
  {
    var owned := BuildingsOf(db, c.id);
    if CanDelete(CardWithCount(db, c)) {
      forall b | b in db.buildings ensures b.customerId != c.id {
        assert b.customerId == c.id ==> b in owned;
      }
    } else {
      assert owned[0] in owned;
    }
  }

  /** The page's `selectedCustomer` state and the dialog it drives. */
  class CustomersList {
    var selected: Option<Id>

    constructor ()
      ensures selected == None
    {
      selected := None;
    }

    /** `open={!!selectedCustomer}`. */
    predicate DialogOpen()
      reads this
    {
      selected.Some? && Truthy(selected.value)
    }

    /** The delete button of `card`, which only cards without buildings render. */
    method AskDelete(card: CustomerCard)
      modifies this
      ensures selected == if CanDelete(card) then Some(card.id) else old(selected)
    {
      if CanDelete(card) {
        selected := Some(card.id);
      }
    }

    /** The dialog's cancel button. */
    method Cancel()
      modifies this
      ensures selected == None && !DialogOpen()
    {
      selected := None;
    }

    /**
     * The dialog's confirm button: when a customer is selected, run the cascade delete. Success
     * invalidates only the customer list and clears the selection; failure keeps the dialog open
     * on the same customer and invalidates nothing.
     */
    method Confirm(store: Store, cache: QueryCache, inject: Step -> StoreOutcome) returns (sent: Option<StoreOutcome>)
      modifies this, store, cache
      ensures !old(DialogOpen()) ==>
        sent == None && selected == old(selected) && store.Snapshot() == old(store.Snapshot()) &&
        cache.cached == old(cache.cached) && cache.stale == old(cache.stale)
      ensures old(DialogOpen()) ==>
        var run := CustomerCascade(old(store.Snapshot()), old(selected).value, inject);
        sent == Some(run.outcome) && store.Snapshot() == run.db && cache.cached == old(cache.cached) &&
        (run.outcome.Ok? ==> (selected == None &&
          cache.stale == Invalidated(old(cache.cached), old(cache.stale), InvalidationKeys(DeleteCustomer)))) &&
        (run.outcome.Err? ==> (selected == old(selected) && cache.stale == old(cache.stale)))
      ensures old(store.Consistent()) ==> store.Consistent()
      ensures old(cache.Valid()) ==> cache.Valid()
    {
      if !DialogOpen() {
        return None;
      }
      var out := store.DeleteCustomerCascade(selected.value, inject);
      sent := Some(out);
      if out.Ok? {
        cache.InvalidateEach(InvalidationKeys(DeleteCustomer));
        selected := None;
      }
    }
  }

  /**
   * A successful cascade delete refreshes the customer list alone: the deleted customer's building
   * list, the building overview, the asset views and the dashboard are left stale.
   */
  lemma CascadeRefreshesOnlyTheList(v: View)
    ensures Refreshes(DeleteCustomer, v) <==> v == CustomersView
  {
    RefreshedViews(DeleteCustomer, v);
  }
}
