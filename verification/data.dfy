/**
 * The query layer: joins, filtering, sorting, pagination and aggregates over
 * the in-memory `invoices` and `customers` collections. The latency timers,
 * logging and error rethrowing around each query are not modelled.
 */
module Data {
  import opened Wrappers
  import opened JsString
  import opened JsArray
  import opened Definitions

  const ITEMS_PER_PAGE: nat := 6

  // ---------------------------------------------------------------- join

  /** `customers.find(c => c.id === invoice.customer_id)`. */
  function CustomerOf(customers: seq<Customer>, invoice: Invoice): (r: Option<Customer>)
    ensures r.Some? ==>
      exists i :: 0 <= i < |customers| && customers[i] == r.value && customers[i].id == invoice.customer_id
        && forall j :: 0 <= j < i ==> customers[j].id != invoice.customer_id
    ensures r.None? <==> forall j :: 0 <= j < |customers| ==> customers[j].id != invoice.customer_id
  {
    Find(customers, (c: Customer) => c.id == invoice.customer_id)
  }

  /**
   * One invoice spread into a joined record: the invoice's own fields are
   * kept, the amount is formatted, and name, image and e-mail come from the
   * first customer with the invoice's `customer_id`, or are "" without one.
   */
  function JoinInvoice(env: Env, customers: seq<Customer>, invoice: Invoice): (r: JoinedInvoice)
    ensures r.id == invoice.id && r.customer_id == invoice.customer_id
    ensures r.date == invoice.date && r.status == invoice.status
    ensures r.amount == env.formatCurrency(invoice.amount)
    ensures forall i ::
      (0 <= i < |customers| && customers[i].id == invoice.customer_id
        && forall j :: 0 <= j < i ==> customers[j].id != invoice.customer_id)
      ==> r.name == customers[i].name && r.image_url == customers[i].image_url && r.email == customers[i].email
    ensures (forall j :: 0 <= j < |customers| ==> customers[j].id != invoice.customer_id) ==>
      r.name == "" && r.image_url == "" && r.email == ""
  {
    // `customer?.name || ""`: a missing customer and an empty name both give "".
    var customer := CustomerOf(customers, invoice);
    JoinedInvoice(
      invoice.id, invoice.customer_id, env.formatCurrency(invoice.amount), invoice.date, invoice.status,
      if customer.Some? then customer.value.name else "",
      if customer.Some? then customer.value.image_url else "",
      if customer.Some? then customer.value.email else "")
  }

  /**
   * `invoices.map(...)` with the join above: the whole of `fetchLatestInvoices`
   * and the first stage of the two paginated queries.
   */
  function Join(env: Env, invoices: seq<Invoice>, customers: seq<Customer>): (r: seq<JoinedInvoice>)
    ensures |r| == |invoices|
    ensures forall i :: 0 <= i < |invoices| ==> r[i] == JoinInvoice(env, customers, invoices[i])
    ensures forall i :: 0 <= i < |invoices| ==>
      r[i].id == invoices[i].id && r[i].customer_id == invoices[i].customer_id
      && r[i].date == invoices[i].date && r[i].status == invoices[i].status
      && r[i].amount == env.formatCurrency(invoices[i].amount)
  {
    seq(|invoices|, i requires 0 <= i < |invoices| => JoinInvoice(env, customers, invoices[i]))
  }

  // ---------------------------------------------------- filtered pagination

  /**
   * The search predicate: e-mail, name and status are compared lower-cased,
   * the formatted amount and the raw date against the query as typed.
   */
  predicate Matches(query: string, r: JoinedInvoice)
    ensures query == "" ==> Matches(query, r)
  {
    // `"".toLowerCase()` is "", and every string includes "".
    assert Lower("") == "";
    IncludesEmpty(Lower(r.email));
    || Includes(Lower(r.email), Lower(query))
    || Includes(Lower(r.name), Lower(query))
    || Includes(r.amount, query)
    || Includes(r.date, query)
    || Includes(Lower(r.status), Lower(query))
  }

  function MatchesQuery(query: string): JoinedInvoice -> bool {
    (r: JoinedInvoice) => Matches(query, r)
  }

  /** The sort key: the timestamp of the record's date. */
  function ByDate(env: Env): JoinedInvoice -> int {
    (r: JoinedInvoice) => env.timestamp(r.date)
  }

  /** Every joined invoice matching `query`, newest first: the list the pages are cut from. */
  function SortedMatches(env: Env, invoices: seq<Invoice>, customers: seq<Customer>, query: string)
    : (r: seq<JoinedInvoice>)
    ensures SortedDesc(r, ByDate(env))
    ensures |r| <= |invoices|
    ensures forall x :: x in r <==> x in Join(env, invoices, customers) && Matches(query, x)
  {
    var sorted := SortDesc(Join(env, invoices, customers), ByDate(env));
    FilterSorted(sorted, MatchesQuery(query), ByDate(env));
    assert forall x :: x in sorted <==> x in multiset(sorted);
    Filter(sorted, MatchesQuery(query))
  }

  /** The zero-based position of the first record of page `currentPage`. */
  function Offset(currentPage: int): (r: int)
    ensures r % ITEMS_PER_PAGE == 0 && r / ITEMS_PER_PAGE == currentPage - 1
    ensures r >= 0 <==> currentPage >= 1
  {
    (currentPage - 1) * ITEMS_PER_PAGE
  }

  /**
   * `all.slice(offset, offset + ITEMS_PER_PAGE)`: page `currentPage` of a
   * list, for any integer page number.
   */
  function PageOf(env: Env, all: seq<JoinedInvoice>, currentPage: int): (r: seq<JoinedInvoice>)
    ensures |r| <= ITEMS_PER_PAGE && |r| <= |all|
    ensures forall x :: x in r ==> x in all
    ensures SortedDesc(all, ByDate(env)) ==> SortedDesc(r, ByDate(env))
    ensures currentPage >= 1 ==>
      var o := Offset(currentPage);
      && |r| == (if o + ITEMS_PER_PAGE < |all| then o + ITEMS_PER_PAGE else |all|) - (if o < |all| then o else |all|)
      && forall k :: 0 <= k < |r| ==> r[k] == all[o + k]
  {
    var o := Offset(currentPage);
    assert 0 <= o || o + ITEMS_PER_PAGE <= 0;
    SliceWithin(all, o, o + ITEMS_PER_PAGE);
    SliceSorted(all, o, o + ITEMS_PER_PAGE, ByDate(env));
    Slice(all, o, o + ITEMS_PER_PAGE)
  }

  /**
   * `fetchFilteredInvoices(query, currentPage)`: join, sort by date
   * descending, keep the matches, and cut out page `currentPage`.
   */
  function FilteredInvoices(env: Env, invoices: seq<Invoice>, customers: seq<Customer>, query: string, currentPage: int)
    : (r: seq<JoinedInvoice>)
    ensures |r| <= ITEMS_PER_PAGE
    ensures forall x :: x in r ==> Matches(query, x) && x in Join(env, invoices, customers)
    ensures SortedDesc(r, ByDate(env))
    ensures currentPage >= 1 ==>
      var all := SortedMatches(env, invoices, customers, query);
      var o := Offset(currentPage);
      && |r| == (if o + ITEMS_PER_PAGE < |all| then o + ITEMS_PER_PAGE else |all|) - (if o < |all| then o else |all|)
      && forall k :: 0 <= k < |r| ==> r[k] == all[o + k]
  {
    PageOf(env, SortedMatches(env, invoices, customers, query), currentPage)
  }

  // ------------------------------------------------------------ page count

  /** `Math.ceil(n / ITEMS_PER_PAGE)`: the fewest pages that hold `n` records. */
  function TotalPages(n: nat): (r: nat)
    ensures n <= r * ITEMS_PER_PAGE < n + ITEMS_PER_PAGE
  {
    (n + ITEMS_PER_PAGE - 1) / ITEMS_PER_PAGE
  }

  /** What a JavaScript callback hands back to its caller. */
  datatype Completion = Undefined | Returned(value: bool)

  /** JavaScript truthiness of a callback's completion, as `filter` reads it. */
  predicate Truthy(c: Completion) {
    c.Returned? && c.value
  }

  /**
   * The filter callback of `fetchInvoicesPages`: its block body evaluates the
   * match expression as a statement and has no `return`, so every call
   * completes with `undefined`.
   */
  function PagesCallback(query: string, r: JoinedInvoice): (c: Completion)
    ensures !Truthy(c)
  {
    var discarded := Matches(query, r);
    Undefined
  }

  /** `fetchInvoicesPages(query)` as written: no record survives its filter, so it is always 0. */
  function InvoicesPages(env: Env, invoices: seq<Invoice>, customers: seq<Customer>, query: string): (r: nat)
    ensures r == 0
  {
    var joined := Join(env, invoices, customers);
    var callback := (x: JoinedInvoice) => Truthy(PagesCallback(query, x));
    FilterNone(joined, callback);
    TotalPages(|Filter(joined, callback)|)
  }

  /**
   * `fetchInvoicesPages(query)` with the callback returning its match: the
   * number of pages `fetchFilteredInvoices` can fill for the same query.
   */
  function InvoicesPagesIntended(env: Env, invoices: seq<Invoice>, customers: seq<Customer>, query: string): (r: nat)
    ensures r == TotalPages(|SortedMatches(env, invoices, customers, query)|)
    ensures r <= TotalPages(|invoices|)
  {
    var joined := Join(env, invoices, customers);
    FilterLengthPermutation(joined, SortDesc(joined, ByDate(env)), MatchesQuery(query));
    TotalPages(|Filter(joined, MatchesQuery(query))|)
  }

  // ------------------------------------------------------------- card data

  /** Reference total: the sum of `amount` over the invoices whose status is `status`. */
  function SumWhere(invoices: seq<Invoice>, status: string): int
    decreases |invoices|
  {
    if |invoices| == 0 then 0
    else (if invoices[0].status == status then invoices[0].amount else 0) + SumWhere(invoices[1..], status)
  }

  /** Reference total: the sum of every invoice's `amount`. */
  function TotalAmount(invoices: seq<Invoice>): int
    decreases |invoices|
  {
    if |invoices| == 0 then 0 else invoices[0].amount + TotalAmount(invoices[1..])
  }

  /** Appending one invoice adds its amount when its status is the one summed. */
  lemma {:induction false} SumWhereAppend(invoices: seq<Invoice>, x: Invoice, status: string)
    ensures SumWhere(invoices + [x], status) == SumWhere(invoices, status) + (if x.status == status then x.amount else 0)
    decreases |invoices|
  {
    if |invoices| > 0 {
      assert (invoices + [x])[1..] == invoices[1..] + [x];
      SumWhereAppend(invoices[1..], x, status);
    }
  }

  /**
   * The two `invoices.reduce` folds of `fetchCardData`, run left to right
   * from 0: the paid total and the pending total.
   */
  method StatusTotals(invoices: seq<Invoice>) returns (paid: int, pending: int)
    ensures paid == SumWhere(invoices, "paid")
    ensures pending == SumWhere(invoices, "pending")
  {
    paid, pending := 0, 0;
    var i := 0;
    while i < |invoices|
      invariant 0 <= i <= |invoices|
      invariant paid == SumWhere(invoices[..i], "paid")
      invariant pending == SumWhere(invoices[..i], "pending")
    {
      var invoice := invoices[i];
      assert invoices[..i + 1] == invoices[..i] + [invoice];
      SumWhereAppend(invoices[..i], invoice, "paid");
      SumWhereAppend(invoices[..i], invoice, "pending");
      paid := if invoice.status == "paid" then paid + invoice.amount else paid;
      pending := if invoice.status == "pending" then pending + invoice.amount else pending;
      i := i + 1;
    }
    assert invoices[..i] == invoices;
  }

  /** `fetchCardData()`: the two collection sizes and the formatted paid and pending totals. */
  method FetchCardData(env: Env, invoices: seq<Invoice>, customers: seq<Customer>) returns (r: CardData)
    ensures r.numberOfInvoices == |invoices|
    ensures r.numberOfCustomers == |customers|
    ensures r.totalPaidInvoices == env.formatCurrency(SumWhere(invoices, "paid"))
    ensures r.totalPendingInvoices == env.formatCurrency(SumWhere(invoices, "pending"))
  {
    var paid, pending := StatusTotals(invoices);
    r := CardData(|customers|, |invoices|, env.formatCurrency(paid), env.formatCurrency(pending));
  }

  // ------------------------------------------------------- invoice by id

  /** A status outside `paid` and `pending` is read as `pending`. */
  function NormaliseStatus(status: string): (r: string)
    ensures r == "paid" || r == "pending"
    ensures status != "paid" && status != "pending" ==> r == "pending"
    ensures r == status <==> status == "paid" || status == "pending"
  {
    if status == "pending" || status == "paid" then status else "pending"
  }

  /** `amount / 100`: cents to dollars. */
  function ToDollars(cents: int): (r: real)
    ensures r * 100.0 == cents as real
  {
    cents as real / 100.0
  }

  /** One invoice prepared for the edit form. */
  function NormaliseInvoice(invoice: Invoice): (r: InvoiceForm)
    ensures r.id == invoice.id && r.customer_id == invoice.customer_id && r.date == invoice.date
    ensures r.amount * 100.0 == invoice.amount as real
    ensures r.status == NormaliseStatus(invoice.status)
  {
    InvoiceForm(invoice.id, invoice.customer_id, ToDollars(invoice.amount), invoice.date, NormaliseStatus(invoice.status))
  }

  /** `fetchInvoiceById(id)` as written: `id` is never read and the first invoice is returned. */
  function InvoiceById(invoices: seq<Invoice>, id: string): (r: Option<InvoiceForm>)
    ensures r.None? <==> |invoices| == 0
    ensures r.Some? ==> r.value == NormaliseInvoice(invoices[0])
  {
    var forms := seq(|invoices|, i requires 0 <= i < |invoices| => NormaliseInvoice(invoices[i]));
    if |forms| == 0 then None else Some(forms[0])
  }

  /** `fetchInvoiceById(id)` as its name promises: the first invoice whose `id` is `id`. */
  function InvoiceByIdIntended(invoices: seq<Invoice>, id: string): (r: Option<InvoiceForm>)
    ensures r.None? <==> forall j :: 0 <= j < |invoices| ==> invoices[j].id != id
    ensures r.Some? ==> r.value.id == id
    ensures r.Some? ==>
      exists i :: 0 <= i < |invoices| && invoices[i].id == id && r.value == NormaliseInvoice(invoices[i])
        && forall j :: 0 <= j < i ==> invoices[j].id != id
  {
    match FirstIndex(invoices, (x: Invoice) => x.id == id)
    case None => None
    case Some(i) => Some(NormaliseInvoice(invoices[i]))
  }
}
