/**
 * The read requests of `customers/queries.ts`: a page of customers, newest first, with the exact
 * total; and one customer by id.
 */
module CustomerQueries {
  import opened Wrappers
  import opened Seqs
  import opened Records
  import opened Tables

  /** The page size `fetchCustomers` uses when its caller names none. */
  const DefaultPageSize := 10

  /** What `fetchCustomers` returns: one window of rows and the number of rows in the whole table. */
  datatype CustomerPage = CustomerPage(data: seq<Customer>, count: nat)

  /** Every customer, newest first (`order("created_at", { ascending: false })`). */
  function NewestFirst(db: Db): (r: seq<Customer>)
    ensures SortedDesc(r, CustomerCreatedAt)
    ensures multiset(r) == multiset(db.customers)
    ensures |r| == |db.customers|
  {
    SortDesc(db.customers, CustomerCreatedAt)
  }

  /** The inclusive row range `[from, to]` that page `page` of size `pageSize` asks for. */
  function PageRange(page: int, pageSize: int): (r: (int, int))
    ensures r.1 - r.0 + 1 == pageSize
  {
    var from := (page - 1) * pageSize;
    (from, from + pageSize - 1)
  }

  /**
   * `rows[from..to]` as `.range(from, to)` returns it: the rows that exist in the window, none when
   * the window starts past the end.
   */
  function Window<T>(rows: seq<T>, from: nat, to: int): (r: seq<T>)
    ensures |r| <= |rows|
    ensures to + 1 >= from ==> |r| <= to + 1 - from
  {
    var lo := if from < |rows| then from else |rows|;
    var hi := if to + 1 < lo then lo else if to + 1 < |rows| then to + 1 else |rows|;
    rows[lo..hi]
  }

  /**
   * `fetchCustomers(page, pageSize = 10)`: a failed request throws. The store refuses a range with a
   * negative offset or length, and, since the exact count is requested, a range that starts beyond
   * the last row. Otherwise the window of the newest-first rows and the exact count (`data ?? []`,
   * `count ?? 0` never fall back on a successful request).
   */
  function FetchCustomers(db: Db, page: int, pageSize: int := DefaultPageSize, o: StoreOutcome): (r: Result<CustomerPage, StoreError>)
    ensures r.Success? <==> o.Ok? && 0 <= (page - 1) * pageSize <= |db.customers| && pageSize >= 0
    ensures o.Err? ==> r == Failure(o.error)
    ensures o.Ok? && r.Failure? ==> r.error == InvalidRange
  {
    var (from, to) := PageRange(page, pageSize);
    if o.Err? then Failure(o.error)
    else if from < 0 || pageSize < 0 || from > |db.customers| then Failure(InvalidRange)
    else Success(CustomerPage(Window(NewestFirst(db), from, to), |db.customers|))
  }

  /**
   * Called with the page number alone, `fetchCustomers` reads the ten newest customers, or all of
   * them when there are fewer, with the table's size.
   */
  lemma FirstPageByDefault(db: Db, o: StoreOutcome)
    ensures var n := |db.customers|;
      FetchCustomers(db, 1, o := o)
      == if o.Err? then Failure(o.error)
         else Success(CustomerPage(NewestFirst(db)[..if n < DefaultPageSize then n else DefaultPageSize], n))
  {
  }

  /**
   * A successful page holds at most `pageSize` rows, all of them customers of the table, newest
   * first, and reports the size of the whole table.
   */
  lemma FetchCustomersPage(db: Db, page: int, pageSize: int, o: StoreOutcome)
    requires FetchCustomers(db, page, pageSize, o).Success?
    ensures var p := FetchCustomers(db, page, pageSize, o).value;
      && |p.data| <= pageSize
      && p.count == |db.customers|
      && (forall c :: c in p.data ==> c in db.customers)
      && SortedDesc(p.data, CustomerCreatedAt)
  {
    var rows := NewestFirst(db);
    var (from, to) := PageRange(page, pageSize);
    var p := FetchCustomers(db, page, pageSize, o).value;
    forall c | c in p.data ensures c in db.customers {
      assert c in multiset(rows);
    }
  }

  /** The page that row `i` of the newest-first order falls on, starting at 1. */
  function PageOf(i: nat, pageSize: nat): (page: int)
    requires pageSize > 0
    ensures page >= 1 && (page - 1) * pageSize <= i < page * pageSize
  {
    i / pageSize + 1
  }

  /** Every customer is listed on exactly the page its position determines, at the position it determines. */
  lemma RowOnItsPage(db: Db, i: nat, pageSize: nat)
    requires pageSize > 0 && i < |db.customers|
    ensures var p := FetchCustomers(db, PageOf(i, pageSize), pageSize, Ok).value;
      i % pageSize < |p.data| && p.data[i % pageSize] == NewestFirst(db)[i]
  {
    var page := PageOf(i, pageSize);
    var lo := (page - 1) * pageSize;
    assert lo == i - i % pageSize;
    PageIsSlice(db, page, pageSize);
    var n := |db.customers|;
    var hi := if lo + pageSize < n then lo + pageSize else n;
    assert FetchCustomers(db, page, pageSize, Ok).value.data == NewestFirst(db)[lo..hi];
    assert lo + i % pageSize == i < hi;
  }

  /** How many rows pages 1 to `k` cover: `k * pageSize`, clipped to the table's `n` rows. */
  function Covered(k: nat, pageSize: nat, n: nat): (c: nat)
    ensures c <= n
    ensures c == n || c == k * pageSize
  {
    if k * pageSize < n then k * pageSize else n
  }

  /** Page `k` holds exactly the rows after those pages 1 to `k - 1` cover, up to those pages 1 to `k` cover. */
  lemma PageSpan(db: Db, k: nat, pageSize: nat)
    requires k >= 1 && (k - 1) * pageSize <= |db.customers|
    ensures var n := |db.customers|;
      && Covered(k - 1, pageSize, n) <= Covered(k, pageSize, n)
      && FetchCustomers(db, k, pageSize, Ok).value.data
         == NewestFirst(db)[Covered(k - 1, pageSize, n)..Covered(k, pageSize, n)]
  {
    PageIsSlice(db, k, pageSize);
    NextMultiple(k, pageSize);
  }

  /** Pages 1 to `k` concatenated, for `k` pages none of which starts beyond the last row. */
  function FirstPages(db: Db, k: nat, pageSize: nat): seq<Customer>
    requires k == 0 || (k - 1) * pageSize <= |db.customers|
  {
    if k == 0 then []
    else
      EarlierPageStarts(k, pageSize);
      FirstPages(db, k - 1, pageSize) + FetchCustomers(db, k, pageSize, Ok).value.data
  }

  /** An earlier page starts no later than a later one. */
  lemma EarlierPageStarts(k: nat, pageSize: nat)
    requires k >= 1
    ensures (k - 1) * pageSize <= k * pageSize
    ensures k >= 2 ==> (k - 2) * pageSize <= (k - 1) * pageSize
  {
  }

  /** Pages 1 to `k` together are the first `k * pageSize` rows (or all rows, if fewer), in order. */
  lemma {:induction false} PagesTile(db: Db, k: nat, pageSize: nat)
    requires k == 0 || (k - 1) * pageSize <= |db.customers|
    ensures FirstPages(db, k, pageSize) == NewestFirst(db)[..Covered(k, pageSize, |db.customers|)]
  {
    if k > 0 {
      var rows := NewestFirst(db);
      var n := |db.customers|;
      EarlierPageStarts(k, pageSize);
      PagesTile(db, k - 1, pageSize);
      PageSpan(db, k, pageSize);
      var a := Covered(k - 1, pageSize, n);
      var b := Covered(k, pageSize, n);
      assert rows[..b] == rows[..a] + rows[a..b];
    }
  }

  lemma NextMultiple(k: nat, pageSize: nat)
    requires k > 0
    ensures k * pageSize == (k - 1) * pageSize + pageSize
  {
  }

  /** A successful page is the slice of the newest-first rows its range names, clipped to the table. */
  lemma PageIsSlice(db: Db, page: int, pageSize: nat)
    requires page >= 1 && (page - 1) * pageSize <= |db.customers|
    ensures var (lo, n) := ((page - 1) * pageSize, |db.customers|);
      && lo >= 0
      && FetchCustomers(db, page, pageSize, Ok)
         == Success(CustomerPage(NewestFirst(db)[lo..if lo + pageSize < n then lo + pageSize else n], n))
  {
    var lo := (page - 1) * pageSize;
    var range := PageRange(page, pageSize);
    assert range.0 == lo && range.1 + 1 == lo + pageSize;
  }

  /**
   * The page that starts just after the last row is empty but still reports the full count; a page
   * starting further on is refused as a range that cannot be satisfied.
   */
  lemma PastTheEnd(db: Db, page: int, pageSize: nat)
    requires page >= 1 && pageSize > 0 && (page - 1) * pageSize >= |db.customers|
    ensures (page - 1) * pageSize == |db.customers| ==>
      FetchCustomers(db, page, pageSize, Ok) == Success(CustomerPage([], |db.customers|))
    ensures (page - 1) * pageSize > |db.customers| ==> FetchCustomers(db, page, pageSize, Ok) == Failure(InvalidRange)
  {
  }

  /** The rows whose id is `id`. */
  function CustomersWithId(db: Db, id: Id): (r: seq<Customer>)
    ensures forall c :: c in r <==> c in db.customers && c.id == id
  {
    Filter(db.customers, (c: Customer) => c.id == id)
  }

  /** `fetchCustomerById(id)`: `.single()` over the rows with that id. */
  function FetchCustomerById(db: Db, id: Id, o: StoreOutcome): (r: Result<Customer, StoreError>)
    ensures o.Err? ==> r == Failure(o.error)
  {
    if o.Err? then Failure(o.error) else Single(CustomersWithId(db, id))
  }

  /**
   * With primary keys distinct, the lookup succeeds exactly when the request does and the id
   * exists, and then returns that customer; a missing id is the zero-row error.
   */
  lemma FetchCustomerByIdFinds(db: Db, id: Id, o: StoreOutcome)
    requires UniqueKeys(db)
    ensures var r := FetchCustomerById(db, id, o);
      && (r.Success? <==> o.Ok? && id in CustomerIds(db))
      && (r.Success? ==> r.value in db.customers && r.value.id == id)
      && (o.Ok? && id !in CustomerIds(db) ==> r == Failure(NotSingleRow(0)))
  {
    var rows := CustomersWithId(db, id);
    FilterDistinct(db.customers, (c: Customer) => c.id == id, CustomerKey);
    SameKeyAtMostOne(rows, CustomerKey, id);
    if id in CustomerIds(db) {
      var c :| c in db.customers && c.id == id;
      assert c in rows;
    } else {
      EmptyIffNoMember(rows);
    }
  }
}
