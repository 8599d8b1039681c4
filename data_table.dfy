/**
  The list component shared by the admin pages: a case-insensitive search
  over selected keys, pagination with a page-size selector, and the
  Previous/Next buttons.
*/
module DataTable {
  import opened JsValues
  import opened JsStrings

  /** The page sizes offered when the caller passes none. */
  const DefaultEntriesPerPageOptions: seq<int> := [5, 10, 15, 20]

  // ---- Search ----

  /** `String(item[key] ?? "")`: an absent or null cell is searched as "". */
  function CellText(row: Record, key: string): string {
    ToJsString(Coalesce(Get(row, key), Str("")))
  }

  predicate KeyMatches(row: Record, key: string, query: string) {
    Includes(ToLowerCase(CellText(row, key)), ToLowerCase(query))
  }

  /** `searchKeys.some(...)`: some selected key's text contains the query, both lower-cased. */
  predicate RowMatches(row: Record, keys: seq<string>, query: string) {
    exists k | 0 <= k < |keys| :: KeyMatches(row, keys[k], query)
  }

  /** `a` is `b` with some elements left out, the rest in their order. */
  predicate IsSubsequence<T(==)>(a: seq<T>, b: seq<T>)
    decreases |b|
  {
    if a == [] then true
    else if b == [] then false
    else (a[0] == b[0] && IsSubsequence(a[1..], b[1..])) || IsSubsequence(a, b[1..])
  }

  /** The rows the search effect keeps, in the order of `data`. */
  function Filter(data: seq<Record>, keys: seq<string>, query: string): (r: seq<Record>)
    ensures |r| <= |data|
    ensures IsSubsequence(r, data)
    ensures forall x :: x in r <==> x in data && RowMatches(x, keys, query)
    decreases |data|
  {
    if data == [] then []
    else
      var rest := Filter(data[1..], keys, query);
      assert forall x :: x in data <==> x == data[0] || x in data[1..];
      if RowMatches(data[0], keys, query) then [data[0]] + rest else rest
  }

  /** A kept row appears as often as in the data, every other row not at all. */
  lemma {:induction false} FilterCount(data: seq<Record>, keys: seq<string>, query: string)
    ensures forall x :: multiset(Filter(data, keys, query))[x] == if RowMatches(x, keys, query) then multiset(data)[x] else 0
    decreases |data|
  {
    if data != [] {
      FilterCount(data[1..], keys, query);
      assert data == [data[0]] + data[1..];
    }
  }

  /** Filtering distributes over concatenation, so each row is judged on its own. */
  lemma {:induction false} FilterAppend(a: seq<Record>, b: seq<Record>, keys: seq<string>, query: string)
    ensures Filter(a + b, keys, query) == Filter(a, keys, query) + Filter(b, keys, query)
    decreases |a|
  {
    if a != [] {
      assert (a + b)[1..] == a[1..] + b;
      FilterAppend(a[1..], b, keys, query);
    } else {
      assert a + b == b;
    }
  }

  /** An empty query keeps every row when some key is searched. */
  lemma {:induction false} FilterEmptyQuery(data: seq<Record>, keys: seq<string>)
    requires |keys| > 0
    ensures Filter(data, keys, "") == data
    decreases |data|
  {
    if data != [] {
      IncludesEmpty(ToLowerCase(CellText(data[0], keys[0])));
      assert KeyMatches(data[0], keys[0], "");
      FilterEmptyQuery(data[1..], keys);
      assert [data[0]] + data[1..] == data;
    }
  }

  /** With no search keys nothing matches, not even the empty query. */
  lemma {:induction false} FilterNoKeys(data: seq<Record>, query: string)
    ensures Filter(data, [], query) == []
    decreases |data|
  {
    if data != [] {
      FilterNoKeys(data[1..], query);
    }
  }

  /** Searching ignores the case of the query. */
  lemma {:induction false} FilterQueryCaseInsensitive(data: seq<Record>, keys: seq<string>, query: string)
    ensures Filter(data, keys, ToLowerCase(query)) == Filter(data, keys, query)
    decreases |data|
  {
    ToLowerCaseIdempotent(query);
    if data != [] {
      FilterQueryCaseInsensitive(data[1..], keys, query);
      assert RowMatches(data[0], keys, ToLowerCase(query)) == RowMatches(data[0], keys, query);
    }
  }

  // ---- Pagination ----

  /** `Math.ceil(n / k)`: the fewest pages of `k` rows that hold `n` rows. */
  function TotalPages(n: nat, k: int): (r: nat)
    requires k > 0
    ensures r * k >= n
    ensures r == 0 || (r - 1) * k < n
  {
    (n + k - 1) / k
  }

  /** `s.slice(start, end)`: negative bounds count from the end, and bounds are clamped. */
  function JsSlice<T>(s: seq<T>, start: int, end: int): (r: seq<T>)
    ensures 0 <= start <= end <= |s| ==> r == s[start..end]
  {
    var from := if start < 0 then Max(|s| + start, 0) else Min(start, |s|);
    var to := if end < 0 then Max(|s| + end, 0) else Min(end, |s|);
    if from < to then s[from..to] else []
  }

  function Min(a: int, b: int): int { if a < b then a else b }
  function Max(a: int, b: int): int { if a < b then b else a }

  /** `filtered.slice((page - 1) * k, page * k)`. */
  function PageRows(filtered: seq<Record>, page: int, k: int): seq<Record> {
    JsSlice(filtered, (page - 1) * k, page * k)
  }

  /** The rows of page `page` are the `page`-th run of `k` filtered rows, at most `k` of them. */
  lemma PageRowsWindow(filtered: seq<Record>, page: int, k: int)
    requires page >= 1 && k > 0
    ensures var r := PageRows(filtered, page, k);
      && |r| <= k
      && (forall x :: x in r ==> x in filtered)
      && ((page - 1) * k <= |filtered| ==> r == filtered[(page - 1) * k..Min(page * k, |filtered|)])
      && ((page - 1) * k >= |filtered| ==> r == [])
  {
    assert (page - 1) * k >= 0 && page * k == (page - 1) * k + k;
  }

  /** Every page from 1 to the page count shows at least one row. */
  lemma PageRowsNonEmpty(filtered: seq<Record>, page: int, k: int)
    requires k > 0 && 1 <= page <= TotalPages(|filtered|, k)
    ensures PageRows(filtered, page, k) != []
  {
    var total := TotalPages(|filtered|, k);
    assert (page - 1) * k <= (total - 1) * k;
    PageRowsWindow(filtered, page, k);
  }

  /** The Previous button is disabled on the first page. */
  predicate PreviousDisabled(page: int) {
    page == 1
  }

  /** The Next button as written: disabled only when the page equals the page count. */
  predicate NextDisabled(page: int, totalPages: int) {
    page == totalPages
  }

  /**
    With no matching rows there are zero pages, so on page 1 Next stays
    enabled and leads to page 2 of 0, past the last page.
  */
  lemma NextEnabledWithNoRows(k: int)
    requires k > 0
    ensures TotalPages(0, k) == 0
    ensures !NextDisabled(1, TotalPages(0, k))
    ensures 1 + 1 > TotalPages(0, k)
  {
  }

  /** The guard the Next button evidently intends: no page after the last one. */
  predicate NextDisabledIntended(page: int, totalPages: int) {
    page >= totalPages
  }

  /**
    With the intended guard, Next never takes the page past the last page
    once it is on one, and it agrees with the written guard wherever the
    page is below the page count.
  */
  lemma NextIntendedStaysInRange(page: int, totalPages: nat)
    requires 1 <= page
    ensures !NextDisabledIntended(page, totalPages) ==> page + 1 <= totalPages
    ensures page < totalPages ==> (NextDisabled(page, totalPages) <==> NextDisabledIntended(page, totalPages))
    ensures totalPages == 0 ==> NextDisabledIntended(page, totalPages) && !NextDisabled(page, totalPages)
  {
  }

  /** The table's state after its effects have run. */
  class Table {
    var data: seq<Record>
    var searchKeys: seq<string>
    const options: seq<int>
    var searchQuery: string
    var currentPage: int
    var entriesPerPage: int
    var filteredData: seq<Record>

    predicate Valid()
      reads this
    {
      && filteredData == Filter(data, searchKeys, searchQuery)
      && currentPage >= 1
      && (forall i :: 0 <= i < |options| ==> options[i] > 0)
      && entriesPerPage in options
      && entriesPerPage > 0
    }

    /** The page count shown as "Page x of y". */
    function TotalPageCount(): nat
      reads this
      requires Valid()
    {
      TotalPages(|filteredData|, entriesPerPage)
    }

    function DisplayedRows(): seq<Record>
      reads this
      requires Valid()
    {
      PageRows(filteredData, currentPage, entriesPerPage)
    }

    /** The "no results" row replaces the body exactly when nothing matches. */
    predicate ShowsNoResults()
      reads this
    {
      |filteredData| == 0
    }

    constructor (data: seq<Record>, searchKeys: seq<string>, options: seq<int>)
      requires |options| > 0 && forall i :: 0 <= i < |options| ==> options[i] > 0
      ensures Valid()
      ensures this.data == data && this.searchKeys == searchKeys && this.options == options
      ensures searchQuery == "" && currentPage == 1 && entriesPerPage == options[0]
    {
      this.data := data;
      this.searchKeys := searchKeys;
      this.options := options;
      searchQuery := "";
      currentPage := 1;
      entriesPerPage := options[0];
      filteredData := Filter(data, searchKeys, "");
    }

    /** Typing in the search box: the filter runs again, the page stays. */
    method SetSearchQuery(query: string)
      requires Valid()
      modifies this
      ensures Valid()
      ensures searchQuery == query && currentPage == old(currentPage)
      ensures entriesPerPage == old(entriesPerPage) && data == old(data) && searchKeys == old(searchKeys)
    {
      searchQuery := query;
      filteredData := Filter(data, searchKeys, searchQuery);
    }

    /** The parent passes a new list: the filter runs again, the page stays. */
    method SetData(newData: seq<Record>)
      requires Valid()
      modifies this
      ensures Valid()
      ensures data == newData && currentPage == old(currentPage)
      ensures searchQuery == old(searchQuery) && entriesPerPage == old(entriesPerPage)
      ensures searchKeys == old(searchKeys)
    {
      data := newData;
      filteredData := Filter(data, searchKeys, searchQuery);
    }

    /** Choosing a page size: a different size sends the table back to page 1. */
    method SetEntriesPerPage(k: int)
      requires Valid() && k in options
      modifies this
      ensures Valid()
      ensures entriesPerPage == k
      ensures currentPage == if k != old(entriesPerPage) then 1 else old(currentPage)
      ensures filteredData == old(filteredData) && searchQuery == old(searchQuery)
      ensures data == old(data) && searchKeys == old(searchKeys)
    {
      if k != entriesPerPage {
        currentPage := 1;
      }
      entriesPerPage := k;
    }

    /** The Previous button: a click on page 1 does nothing, otherwise one page back. */
    method PreviousPage()
      requires Valid()
      modifies this
      ensures Valid()
      ensures currentPage == if PreviousDisabled(old(currentPage)) then old(currentPage) else old(currentPage) - 1
      ensures filteredData == old(filteredData) && entriesPerPage == old(entriesPerPage)
      ensures searchQuery == old(searchQuery) && data == old(data) && searchKeys == old(searchKeys)
    {
      if !PreviousDisabled(currentPage) {
        currentPage := currentPage - 1;
      }
    }

    /**
      The Next button as written: a click on exactly the last page does
      nothing, any other click moves one page on. Below the last page it
      never leaves the page range; on page 1 of 0, or on a page past the
      count, it moves further out (`NextIntendedStaysInRange` states the
      corrected guard).
    */
    method NextPage()
      requires Valid()
      modifies this
      ensures Valid()
      ensures currentPage == if NextDisabled(old(currentPage), old(TotalPageCount())) then old(currentPage) else old(currentPage) + 1
      ensures currentPage != old(currentPage) ==> old(currentPage) != old(TotalPageCount())
      ensures old(currentPage) < old(TotalPageCount()) ==> currentPage <= TotalPageCount()
      ensures filteredData == old(filteredData) && entriesPerPage == old(entriesPerPage)
      ensures searchQuery == old(searchQuery) && data == old(data) && searchKeys == old(searchKeys)
    {
      if !NextDisabled(currentPage, TotalPageCount()) {
        currentPage := currentPage + 1;
      }
    }
  }

  /**
    A search that matches nothing leaves page 1 of 0 pages, and a click on
    Next then shows page 2 of 0.
  */
  method NextOnEmptyResult(t: Table)
    requires t.Valid() && t.currentPage == 1 && t.filteredData == []
    modifies t
    ensures t.Valid() && t.TotalPageCount() == 0 && t.currentPage == 2
    ensures t.ShowsNoResults()
  {
    t.NextPage();
  }

  /** A fresh table with the default options shows page 1 of rows of five. */
  method DefaultTable(data: seq<Record>, keys: seq<string>) returns (t: Table)
    requires |keys| > 0
    ensures t.Valid() && t.currentPage == 1 && t.entriesPerPage == 5
    ensures t.filteredData == data
    ensures t.DisplayedRows() == PageRows(data, 1, 5)
  {
    t := new Table(data, keys, DefaultEntriesPerPageOptions);
    FilterEmptyQuery(data, keys);
  }
}
