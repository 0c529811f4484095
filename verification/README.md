# Invoicing dashboard query layer, modelled in Dafny

This project models the query layer of a tutorial invoicing dashboard
(`src/app/lib/data.ts`). The layer answers the dashboard's read requests from
two in-memory collections, `invoices` and `customers`:

- a **join** that pairs every invoice with the first customer whose `id` is the
  invoice's `customer_id` and formats the amount (`fetchLatestInvoices`, and the
  first stage of the two paginated queries);
- **filtered pagination** (`fetchFilteredInvoices`): join, sort by date newest
  first, keep the records matching a search query, and cut out one page of six;
- the **page count** (`fetchInvoicesPages`);
- the **card aggregates** (`fetchCardData`): both collection sizes and the paid
  and pending totals;
- the **lookup by id** (`fetchInvoiceById`), with its status normalisation.

All of it is pure sequence logic, so every operation is a Dafny function or
method over immutable datatypes:

| file | module | contents |
|---|---|---|
| `wrappers.dfy` | `Wrappers` | `Option`, for JavaScript's `undefined` results |
| `js_string.dfy` | `JsString` | `toLowerCase` (ASCII) and `includes`, with a reference definition of substring occurrence |
| `js_array.dfy` | `JsArray` | `find`, `filter`, `slice` (negative indices included) and the comparator sort, with order and permutation lemmas |
| `definitions.dfy` | `Definitions` | `Customer`, `Invoice`, the joined record, the edit-form record, the card data, and `Env` |
| `data.dfy` | `Data` | the queries of `data.ts` |
| `data_properties.dfy` | `DataProperties` | properties relating several queries or a query to a reference definition |

Code outside the layer enters through `Env`: `formatCurrency` (from `./utils`)
and the parse `new Date(date).getTime()` are uninterpreted function parameters.
Amounts are integer cents. `currentPage` is an integer; `slice` is modelled with
JavaScript's full index rules, so page numbers below 1 are handled as the code
handles them (page 0 is empty; negative pages count back from the end).

Two behaviours of the code shape the model:
- The `fetchInvoicesPages` filter callback (data.ts:156-162) has a block body
  with no `return`. Every record is therefore dropped and the count is 0
  (`Data.InvoicesPages`).
- Only e-mail, name and status are lower-cased before matching. The
  formatted amount and the date are matched against the query as typed
  (`Data.Matches`, characterised by `DataProperties.MatchesIffOccurs`).

## Model

| member | source | states |
|---|---|---|
| JsString.IncludesIffOccurs | src/app/lib/data.ts:126-130 | `includes` holds exactly when the query occurs at some offset of the field |
| JsArray.Find | src/app/lib/data.ts:30 | `find` returns an element satisfying the test with no earlier element satisfying it, and `undefined` exactly when no element does |
| JsArray.Filter | src/app/lib/data.ts:125-131 | `filter` keeps exactly the elements satisfying the test: every kept element satisfies it and comes from the input, and each satisfying element is kept as many times as it occurs in the input |
| JsArray.FilterSorted | src/app/lib/data.ts:124-131 | filtering a date-descending list leaves it date-descending |
| JsArray.FilterLengthPermutation | src/app/lib/data.ts:143-164 | reordering a list does not change how many records a filter keeps, so counting before or after the sort gives the same number |
| JsArray.SortDesc | src/app/lib/data.ts:124 | the comparator sort returns a permutation of its input ordered by descending timestamp |
| JsArray.InsertStable | src/app/lib/data.ts:124 | inserting one record into a date-descending list leaves the records of any one timestamp in their order, the new record joining them in front when it has that timestamp |
| JsArray.SortDescStable | src/app/lib/data.ts:124 | the sort is stable: for every timestamp, the records carrying it appear in the output in the order they had in the input |
| JsArray.FilterCommute | src/app/lib/data.ts:124-131 | filtering by two tests in either order gives the same list, order included |
| JsArray.Slice | src/app/lib/data.ts:132 | `slice(start, end)` is the contiguous run of the list starting at the resolved start index; for `0 <= start <= end` its length is `min(end, n) - min(start, n)`, and it holds at most `end - start` records when `start <= end` and the two indices do not straddle 0 |
| JsArray.SliceLength | src/app/lib/data.ts:132 | for any integer arguments, negative ones included, the slice is as long as the distance between the resolved indices, and empty when the end resolves at or before the start |
| JsArray.SliceAt | src/app/lib/data.ts:132 | position `k` of the slice starting at `o` is position `o + k` of the list, whenever that position exists and `k` is inside the window |
| JsArray.SliceSorted | src/app/lib/data.ts:132 | a slice of a date-descending list is date-descending |
| Data.CustomerOf | src/app/lib/data.ts:30 | the customer found is the first whose `id` equals the invoice's `customer_id`; there is none exactly when no customer has that id |
| Data.JoinInvoice | src/app/lib/data.ts:32-39 | the joined record keeps the invoice's id, customer id, date and status, and formats its amount; name, image and e-mail are the first matching customer's, or "" when no customer matches |
| Data.Join | src/app/lib/data.ts:28-40 | the join keeps the number and the order of the invoices, record `i` being invoice `i` joined |
| Data.Matches | src/app/lib/data.ts:125-131 | the search predicate accepts every record when the query is empty |
| DataProperties.MatchesIffOccurs | src/app/lib/data.ts:125-131 | a record matches exactly when the lower-cased query occurs in its lower-cased e-mail, name or status, or the query as typed occurs in its formatted amount or its date |
| JsString.Lower | src/app/lib/data.ts:126-130 | `toLowerCase` keeps the length, maps each ASCII capital to its small letter and leaves every other character alone, so the result holds no ASCII capital |
| Data.SortedMatches | src/app/lib/data.ts:111-131 | the list the pages are cut from is date-descending, and its elements are exactly the joined invoices that match the query |
| DataProperties.SortedMatchesCounts | src/app/lib/data.ts:111-131 | each matching joined invoice occurs in that list as often as in the join, and a non-matching one not at all |
| DataProperties.SortedMatchesStable | src/app/lib/data.ts:124-131 | matches sharing a date come out in the order the invoice list gave them: for every timestamp, the records of the sorted matches carrying it are exactly the matching joined invoices carrying it, in input order |
| Data.Offset | src/app/lib/data.ts:107 | the offset of page `p` is a multiple of 6 whose quotient by 6 is `p - 1`, and it is non-negative exactly for pages `p >= 1` |
| Data.PageOf | src/app/lib/data.ts:107-132 | page `p` of a list holds at most 6 of its records, stays date-descending when the list is, and for `p >= 1` is exactly positions `[(p-1)*6, (p-1)*6+6)` clipped to the list |
| Data.FilteredInvoices | src/app/lib/data.ts:102-134 | a page holds at most 6 records, all matching the query and all joined invoices, date-descending; for page `p >= 1` it is exactly positions `[(p-1)*6, (p-1)*6+6)` of the sorted matches, clipped to their length |
| Data.TotalPages | src/app/lib/data.ts:164 | the page count is the fewest pages of 6 that hold all the records |
| Data.PagesCallback | src/app/lib/data.ts:156-162 | the callback's completion is never truthy, whatever the record and the query |
| Data.InvoicesPages | src/app/lib/data.ts:141-165 | `fetchInvoicesPages` as written returns 0 for every query and every dataset |
| Data.InvoicesPagesIntended | src/app/lib/data.ts:156-164 | with the callback returning its match, the count is the page count of the sorted matches `fetchFilteredInvoices` pages through, and never exceeds the page count of all invoices |
| Data.StatusTotals | src/app/lib/data.ts:62-67 | the two left-to-right folds compute the sum of amounts over `paid` invoices and over `pending` invoices, as given by an independent recursive total |
| Data.FetchCardData | src/app/lib/data.ts:52-95 | the cards report the invoice count, the customer count, and the formatted paid and pending totals |
| Data.NormaliseStatus | src/app/lib/data.ts:189 | the status handed on is always `paid` or `pending`; it is the original status exactly when that was already `paid` or `pending`, and any other status becomes `pending` |
| Data.ToDollars | src/app/lib/data.ts:188 | the dollar amount times 100 is the amount in cents |
| Data.NormaliseInvoice | src/app/lib/data.ts:185-190 | the form record keeps id, customer id and date, holds the amount in dollars, and carries the invoice's status normalised |
| Data.InvoiceById | src/app/lib/data.ts:182-192 | `fetchInvoiceById` gives nothing exactly when there are no invoices, and otherwise the normalised first invoice |
| Data.InvoiceByIdIntended | src/app/lib/data.ts:182-192 | looked up by id: the normalised first invoice whose `id` is the requested one, and nothing exactly when no invoice has that id |
| DataProperties.EmptyQueryKeepsAll | src/app/lib/data.ts:124-131 | with the empty query the filter drops nothing: the list is all joined invoices, newest first |
| DataProperties.EmptyQueryFirstPage | src/app/lib/data.ts:102-132 | page 1 of the empty query is the `min(6, number of invoices)` newest joined invoices |
| DataProperties.NoMatchEmptyPage | src/app/lib/data.ts:125-132 | a query matching no joined invoice yields an empty page for every page number |
| DataProperties.PageOfIndex | src/app/lib/data.ts:107-132 | the pages tile the sorted matches: record `i` is record `i mod 6` of page `i div 6 + 1` |
| DataProperties.PageOfAt | src/app/lib/data.ts:107-132 | for any list, record `i` is record `i mod 6` of page `i div 6 + 1` |
| DataProperties.PagesIntendedCoverResults | src/app/lib/data.ts:102-164 | with the corrected callback, page `p >= 1` is non-empty exactly when `p` is at most the page count |
| DataProperties.PagesUndercount | src/app/lib/data.ts:156-164 | with at least one invoice and the empty query, page 1 is non-empty, the as-written count is 0, and the corrected count is at least 1 |
| DataProperties.PaidPlusPending | src/app/lib/data.ts:62-67 | when every status is `paid` or `pending`, the paid and pending totals add up to the total of all amounts |
| DataProperties.NormaliseStatusIdempotent | src/app/lib/data.ts:189 | normalising a status twice gives the same as normalising it once |
| DataProperties.InvoiceByIdIgnoresId | src/app/lib/data.ts:182-192 | `fetchInvoiceById` gives the same answer for every id |
| DataProperties.InvoiceByIdWrongRecord | src/app/lib/data.ts:182-192 | asked for the second invoice's id, when it differs from the first's, the as-written lookup returns a record with another id, while the lookup by id returns the second invoice |

## Left out

- The artificial latency (`setTimeout`), the `Promise.all` fan-out in `fetchCardData`, `console.log`/`console.error`, and the catch-and-rethrow of a generic "Failed to fetch …" error are not modelled. Nothing in the modelled logic throws.
- `fetchRevenue` and `fetchCustomers` are not modelled. They return the static `revenue` and `customers` collections unchanged.
- `formatCurrency` is a parameter of `Env`. It lives in `./utils`, which is not part of this model, and does locale and floating-point formatting.
- Date parsing is a parameter of `Env` mapping a date string to an integer timestamp. An unparseable date (a `NaN` timestamp, which makes the comparator inconsistent) is not modelled.
- `toLowerCase` is modelled for ASCII letters only. Unicode case mapping is not modelled.
- Data.StatusTotals: adds amounts as unbounded integers. The source's `reduce` adds JavaScript doubles, so the two agree only while every amount is an integer and every partial sum stays within ±2^53 in magnitude; rounding beyond that is not modelled.
- Data.FetchCardData: formats the paid and pending totals of Data.StatusTotals, so it carries the same limit: the totals are exact integer sums, not the double-precision sums the source formats.
- Data.ToDollars: divides exactly, as a real number. The rounding of the IEEE floating-point division `amount / 100` is not modelled.
- Fractional `currentPage` values are not modelled: `currentPage` is an integer.
- `Math.ceil` on the floating-point quotient is modelled as exact ceiling division. The two agree for every count an array can have.
- `Number(… ?? '0')` in `fetchCardData` is the identity here. The counts and totals are always present numbers.
- The `placeholder-data` contents and the `./definitions` type declarations are not part of this model. The records here carry the fields the queries read.
- The authentication files (`auth.ts`, `auth.config.ts`) are not modelled. They are configuration of a third-party library whose `authorize` always returns `null`.

## Findings

| source | as written | input that shows it | evidently intended | confidence | as-written member | corrected member |
|---|---|---|---|---|---|---|
| src/app/lib/data.ts:156-164 | the filter callback has a block body with no `return`, so it yields `undefined` and drops every record; the page count is always 0 | any non-empty `invoices` and the query `""`: page 1 of `fetchFilteredInvoices` is non-empty, yet the count is 0 | the callback returns the match, and the count is `ceil(matches / 6)` | not executed | DataProperties.PagesUndercount | Data.InvoicesPagesIntended |
| src/app/lib/data.ts:182-192 | the `id` argument is never read; the first invoice is returned | two invoices with different ids, asking for the second's id | the first invoice whose `id` equals the argument | not executed | DataProperties.InvoiceByIdWrongRecord | Data.InvoiceByIdIntended |
