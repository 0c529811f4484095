/**
 * Properties of the query layer that relate several calls, or a call to an
 * independent definition.
 */
module DataProperties {
  import opened Wrappers
  import opened JsString
  import opened JsArray
  import opened Definitions
  import opened Data

  /**
   * The search predicate, field by field: the query, lower-cased, occurs in
   * the lower-cased e-mail, name or status, or the query as typed occurs in
   * the formatted amount or the date.
   */
  lemma MatchesIffOccurs(query: string, r: JoinedInvoice)
    ensures Matches(query, r) <==>
      || Occurs(Lower(r.email), Lower(query))
      || Occurs(Lower(r.name), Lower(query))
      || Occurs(r.amount, query)
      || Occurs(r.date, query)
      || Occurs(Lower(r.status), Lower(query))
  {
    IncludesIffOccurs(Lower(r.email), Lower(query));
    IncludesIffOccurs(Lower(r.name), Lower(query));
    IncludesIffOccurs(r.amount, query);
    IncludesIffOccurs(r.date, query);
    IncludesIffOccurs(Lower(r.status), Lower(query));
  }

  /** With the empty query nothing is filtered out: the list is the joined invoices, newest first. */
  lemma EmptyQueryKeepsAll(env: Env, invoices: seq<Invoice>, customers: seq<Customer>)
    ensures SortedMatches(env, invoices, customers, "") == SortDesc(Join(env, invoices, customers), ByDate(env))
    ensures |SortedMatches(env, invoices, customers, "")| == |invoices|
  {
    var sorted := SortDesc(Join(env, invoices, customers), ByDate(env));
    assert forall x :: x in sorted ==> MatchesQuery("")(x);
    FilterAll(sorted, MatchesQuery(""));
  }

  /**
   * The list the pages are cut from holds every matching joined invoice as
   * often as the join does, and nothing else.
   */
  lemma SortedMatchesCounts(env: Env, invoices: seq<Invoice>, customers: seq<Customer>, query: string, x: JoinedInvoice)
    ensures multiset(SortedMatches(env, invoices, customers, query))[x]
      == if Matches(query, x) then multiset(Join(env, invoices, customers))[x] else 0
  {
  }

  /**
   * The sort is stable: the matches sharing any one date come out in the
   * order the invoice list gave them.
   */
  lemma SortedMatchesStable(env: Env, invoices: seq<Invoice>, customers: seq<Customer>, query: string, t: int)
    ensures var sameDate := KeyIs(ByDate(env), t);
      Filter(SortedMatches(env, invoices, customers, query), sameDate)
        == Filter(Filter(Join(env, invoices, customers), MatchesQuery(query)), sameDate)
  {
    var joined := Join(env, invoices, customers);
    var sameDate := KeyIs(ByDate(env), t);
    FilterCommute(SortDesc(joined, ByDate(env)), MatchesQuery(query), sameDate);
    SortDescStable(joined, ByDate(env), t);
    FilterCommute(joined, sameDate, MatchesQuery(query));
  }

  /** Page 1 of the empty query holds the six newest invoices, or all of them when there are fewer. */
  lemma EmptyQueryFirstPage(env: Env, invoices: seq<Invoice>, customers: seq<Customer>)
    ensures var n := if |invoices| < ITEMS_PER_PAGE then |invoices| else ITEMS_PER_PAGE;
      FilteredInvoices(env, invoices, customers, "", 1) == SortDesc(Join(env, invoices, customers), ByDate(env))[..n]
    ensures |FilteredInvoices(env, invoices, customers, "", 1)| == if |invoices| < ITEMS_PER_PAGE then |invoices| else ITEMS_PER_PAGE
  {
    EmptyQueryKeepsAll(env, invoices, customers);
  }

  /** A query that matches no joined invoice yields an empty page, whatever the page number. */
  lemma NoMatchEmptyPage(env: Env, invoices: seq<Invoice>, customers: seq<Customer>, query: string, currentPage: int)
    requires forall x :: x in Join(env, invoices, customers) ==> !Matches(query, x)
    ensures FilteredInvoices(env, invoices, customers, query, currentPage) == []
  {
    var joined := Join(env, invoices, customers);
    var sorted := SortDesc(joined, ByDate(env));
    assert forall x :: x in sorted ==> x in multiset(joined);
    FilterNone(sorted, MatchesQuery(query));
    assert SortedMatches(env, invoices, customers, query) == [];
  }

  /**
   * The pages tile the sorted, filtered list: its record at position `i`
   * is record `i % 6` of page `i / 6 + 1`.
   */
  lemma PageOfIndex(env: Env, invoices: seq<Invoice>, customers: seq<Customer>, query: string, i: nat)
    requires i < |SortedMatches(env, invoices, customers, query)|
    ensures var page := FilteredInvoices(env, invoices, customers, query, i / ITEMS_PER_PAGE + 1);
      i % ITEMS_PER_PAGE < |page| && page[i % ITEMS_PER_PAGE] == SortedMatches(env, invoices, customers, query)[i]
  {
    PageOfAt(env, SortedMatches(env, invoices, customers, query), i);
  }

  /** Position `i` of any list lies at position `i % 6` of page `i / 6 + 1`. */
  lemma PageOfAt(env: Env, all: seq<JoinedInvoice>, i: nat)
    requires i < |all|
    ensures var page := PageOf(env, all, i / ITEMS_PER_PAGE + 1);
      i % ITEMS_PER_PAGE < |page| && page[i % ITEMS_PER_PAGE] == all[i]
  {
    var q := i / ITEMS_PER_PAGE;
    var k := i % ITEMS_PER_PAGE;
    assert q * ITEMS_PER_PAGE + k == i;
    assert Offset(q + 1) == q * ITEMS_PER_PAGE;
    var page := PageOf(env, all, q + 1);
    assert |page| == (if i - k + ITEMS_PER_PAGE < |all| then i - k + ITEMS_PER_PAGE else |all|) - (i - k);
  }

  /**
   * With the callback corrected, the page count is exactly the number of
   * pages `fetchFilteredInvoices` fills: page `p >= 1` is non-empty iff
   * `p` does not exceed the count.
   */
  lemma {:induction false} PagesIntendedCoverResults(env: Env, invoices: seq<Invoice>, customers: seq<Customer>, query: string, currentPage: int)
    requires currentPage >= 1
    ensures currentPage <= InvoicesPagesIntended(env, invoices, customers, query)
      <==> |FilteredInvoices(env, invoices, customers, query, currentPage)| > 0
  {
    var n := |SortedMatches(env, invoices, customers, query)|;
    var pages := InvoicesPagesIntended(env, invoices, customers, query);
    assert n <= pages * ITEMS_PER_PAGE < n + ITEMS_PER_PAGE;
    if currentPage <= pages {
      assert Offset(currentPage) < n;
    } else {
      assert Offset(currentPage) >= n;
    }
  }

  /**
   * The discrepancy in `fetchInvoicesPages`: with the empty query and at
   * least one invoice there is a page of results, yet the count is 0.
   */
  lemma PagesUndercount(env: Env, invoices: seq<Invoice>, customers: seq<Customer>)
    requires |invoices| > 0
    ensures |FilteredInvoices(env, invoices, customers, "", 1)| > 0
    ensures InvoicesPages(env, invoices, customers, "") == 0
    ensures InvoicesPagesIntended(env, invoices, customers, "") >= 1
  {
    EmptyQueryKeepsAll(env, invoices, customers);
  }

  /** When every status is `paid` or `pending`, the two card totals add up to all amounts. */
  lemma {:induction false} PaidPlusPending(invoices: seq<Invoice>)
    requires forall i :: 0 <= i < |invoices| ==> invoices[i].status == "paid" || invoices[i].status == "pending"
    ensures SumWhere(invoices, "paid") + SumWhere(invoices, "pending") == TotalAmount(invoices)
    decreases |invoices|
  {
    if |invoices| > 0 {
      PaidPlusPending(invoices[1..]);
    }
  }

  /** Normalising a normalised status changes nothing. */
  lemma NormaliseStatusIdempotent(status: string)
    ensures NormaliseStatus(NormaliseStatus(status)) == NormaliseStatus(status)
  {
  }

  /** `fetchInvoiceById` answers every id alike. */
  lemma InvoiceByIdIgnoresId(invoices: seq<Invoice>, id: string, other: string)
    ensures InvoiceById(invoices, id) == InvoiceById(invoices, other)
  {
  }

  /**
   * The discrepancy in `fetchInvoiceById`: asked for the second invoice's id,
   * it returns the first invoice, while the lookup by id returns the second.
   */
  lemma InvoiceByIdWrongRecord(invoices: seq<Invoice>)
    requires |invoices| >= 2 && invoices[0].id != invoices[1].id
    ensures InvoiceById(invoices, invoices[1].id).Some?
    ensures InvoiceById(invoices, invoices[1].id).value.id != invoices[1].id
    ensures InvoiceByIdIntended(invoices, invoices[1].id) == Some(NormaliseInvoice(invoices[1]))
  {
  }
}
