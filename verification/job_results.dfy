/** The search results list: results sorted by status and relevance, the
    per-status counts, the status filter, ten results per page, and the
    window of at most five page buttons. */
module JobResults {
  import opened Wrappers
  import opened Seqs
  import opened Sorting

  /** A search result as the list reads it; `status` is the stored string. */
  datatype SearchResult = SearchResult(jobId: string, status: string, relevanceScore: Option<int>)

  const ItemsPerPage := 10
  const MaxVisiblePages := 5

  // ------------------------------------------------------------ sorting

  /** `statusPriority[status] ?? 3`. */
  function Priority(status: string): (p: nat)
    ensures p <= 3
    ensures p == 0 <==> status == "valid"
    ensures p == 1 <==> status == "partial"
    ensures p == 2 <==> status == "pending"
  {
    if status == "valid" then 0
    else if status == "partial" then 1
    else if status == "pending" then 2
    else 3
  }

  /** `relevanceScore || 0`. */
  function Score(r: SearchResult): int {
    if r.relevanceScore.Some? then r.relevanceScore.value else 0
  }

  /** The comparator is negative: a lower priority number first, then the
      higher score. */
  predicate ComesBefore(a: SearchResult, b: SearchResult) {
    Priority(a.status) < Priority(b.status) ||
    (Priority(a.status) == Priority(b.status) && Score(a) > Score(b))
  }

  lemma ComesBeforeIsStrictWeakOrder()
    ensures StrictWeakOrder(ComesBefore)
  {
  }

  /** `[...searchResults].sort(...)`. */
  function SortedResults(results: seq<SearchResult>): seq<SearchResult> {
    Sort(results, ComesBefore)
  }

  /** The sorted list is a rearrangement of the results with valid, partial,
      pending and then every other status, each group by falling score. */
  lemma SortedResultsOrder(results: seq<SearchResult>)
    ensures multiset(SortedResults(results)) == multiset(results)
    ensures forall i, j :: 0 <= i < j < |SortedResults(results)| ==>
              Priority(SortedResults(results)[i].status) <= Priority(SortedResults(results)[j].status)
    ensures forall i, j ::
              0 <= i < j < |SortedResults(results)| &&
              Priority(SortedResults(results)[i].status) == Priority(SortedResults(results)[j].status)
              ==> Score(SortedResults(results)[i]) >= Score(SortedResults(results)[j])
  {
    ComesBeforeIsStrictWeakOrder();
    SortSorted(results, ComesBefore);
  }

  // ------------------------------------------------------------ counting

  /** The accumulator of `statusCounts`. */
  datatype StatusCounts = StatusCounts(valid: nat, pending: nat, invalid: nat, partial: nat)

  predicate HasStatus(status: string, r: SearchResult) { r.status == status }

  predicate KnownStatus(status: string) {
    status in {"valid", "pending", "invalid", "partial"}
  }

  /** How many results carry `status`. */
  function CountOf(results: seq<SearchResult>, status: string): (n: nat)
    ensures n <= |results|
  {
    if |results| == 0 then 0
    else CountOf(results[..|results| - 1], status) + (if results[|results| - 1].status == status then 1 else 0)
  }

  /** How many results carry a status other than the four known ones. */
  function CountUnknown(results: seq<SearchResult>): (n: nat)
    ensures n <= |results|
  {
    if |results| == 0 then 0
    else CountUnknown(results[..|results| - 1]) + (if KnownStatus(results[|results| - 1].status) then 0 else 1)
  }

  /** The `reduce` that counts the results of each status. */
  method CountStatuses(results: seq<SearchResult>) returns (counts: StatusCounts)
    ensures counts.valid == CountOf(results, "valid")
    ensures counts.pending == CountOf(results, "pending")
    ensures counts.invalid == CountOf(results, "invalid")
    ensures counts.partial == CountOf(results, "partial")
  {
    counts := StatusCounts(0, 0, 0, 0);
    var i := 0;
    while i < |results|
      invariant 0 <= i <= |results|
      invariant counts.valid == CountOf(results[..i], "valid")
      invariant counts.pending == CountOf(results[..i], "pending")
      invariant counts.invalid == CountOf(results[..i], "invalid")
      invariant counts.partial == CountOf(results[..i], "partial")
    {
      assert results[..i + 1][..i] == results[..i];
      var s := results[i].status;
      if s == "valid" {
        counts := counts.(valid := counts.valid + 1);
      } else if s == "pending" {
        counts := counts.(pending := counts.pending + 1);
      } else if s == "invalid" {
        counts := counts.(invalid := counts.invalid + 1);
      } else if s == "partial" {
        counts := counts.(partial := counts.partial + 1);
      }
      i := i + 1;
    }
    assert results[..|results|] == results;
  }

  /** Every result is counted under its own status, or else is one of the
      unknown ones: the four counts and the unknown ones add up to the
      number of results. */
  lemma {:induction false} CountsCoverAllResults(results: seq<SearchResult>)
    ensures CountOf(results, "valid") + CountOf(results, "pending") + CountOf(results, "invalid") +
            CountOf(results, "partial") + CountUnknown(results) == |results|
  {
    if |results| > 0 {
      CountsCoverAllResults(results[..|results| - 1]);
    }
  }

  /** Only one status of each result is counted. */
  lemma {:induction false} CountOfIsTheStatusFilter(results: seq<SearchResult>, status: string)
    ensures CountOf(results, status) == |Filter(results, r => HasStatus(status, r))|
  {
    if |results| > 0 {
      var init := results[..|results| - 1];
      CountOfIsTheStatusFilter(init, status);
      assert results == init + [results[|results| - 1]];
      FilterConcat(init, [results[|results| - 1]], r => HasStatus(status, r));
    }
  }

  // ------------------------------------------------------------ filtering and pages

  datatype StatusFilter = AllStatuses | Only(status: string)

  /** `filteredResults`. */
  function FilterResults(sorted: seq<SearchResult>, filter: StatusFilter): (r: seq<SearchResult>)
    ensures filter.AllStatuses? ==> r == sorted
    ensures filter.Only? ==> r == Filter(sorted, x => HasStatus(filter.status, x))
  {
    match filter
    case AllStatuses => sorted
    case Only(status) => Filter(sorted, x => HasStatus(status, x))
  }

  /** `Math.ceil(n / itemsPerPage)`. */
  function TotalPages(n: nat): (t: nat)
    ensures (t - 1) * ItemsPerPage < n <= t * ItemsPerPage || (n == 0 && t == 0)
  {
    (n + ItemsPerPage - 1) / ItemsPerPage
  }

  /** `filteredResults.slice((page - 1) * 10, page * 10)`. */
  function PageOf<T>(items: seq<T>, page: nat): (r: seq<T>)
    requires page >= 1
    ensures |r| <= ItemsPerPage
    ensures 1 <= page <= TotalPages(|items|) ==> |r| > 0
    ensures forall k :: 0 <= k < |r| ==> (page - 1) * ItemsPerPage + k < |items| &&
                                         r[k] == items[(page - 1) * ItemsPerPage + k]
  {
    Slice(items, (page - 1) * ItemsPerPage, page * ItemsPerPage)
  }

  /** The pages, read in turn, give back every filtered result once and in
      order. */
  lemma {:induction false} PagesPartition<T>(items: seq<T>, pages: nat)
    requires pages <= TotalPages(|items|)
    ensures Pages(items, pages) == items[..if pages * ItemsPerPage <= |items| then pages * ItemsPerPage else |items|]
  {
    if pages > 0 {
      PagesPartition(items, pages - 1);
      var lo := (pages - 1) * ItemsPerPage;
      var hi := if pages * ItemsPerPage <= |items| then pages * ItemsPerPage else |items|;
      assert PageOf(items, pages) == items[lo..hi];
      assert items[..lo] + items[lo..hi] == items[..hi];
    }
  }

  /** The first `pages` pages, concatenated. */
  function Pages<T>(items: seq<T>, pages: nat): seq<T> {
    if pages == 0 then [] else Pages(items, pages - 1) + PageOf(items, pages)
  }

  /** `start..end`, both included. */
  function Range(start: int, end: int): (r: seq<int>)
    ensures |r| == if end < start then 0 else end - start + 1
    ensures forall k :: 0 <= k < |r| ==> r[k] == start + k
    decreases end - start
  {
    if end < start then [] else Range(start, end - 1) + [end]
  }

  /** The first and last page buttons shown. */
  function PageWindow(currentPage: int, totalPages: nat): (int, int) {
    if totalPages <= MaxVisiblePages then (1, totalPages)
    else
      var start := if currentPage - 2 < 1 then 1 else currentPage - 2;
      var end := if totalPages < start + MaxVisiblePages - 1 then totalPages else start + MaxVisiblePages - 1;
      if end - start < MaxVisiblePages - 1 then
        (if end - MaxVisiblePages + 1 < 1 then 1 else end - MaxVisiblePages + 1, end)
      else (start, end)
  }

  /** `getPageNumbers`. */
  method GetPageNumbers(currentPage: int, totalPages: nat) returns (pages: seq<int>)
    ensures pages == Range(PageWindow(currentPage, totalPages).0, PageWindow(currentPage, totalPages).1)
  {
    pages := [];
    var start: int, end: int;
    if totalPages <= MaxVisiblePages {
      start, end := 1, totalPages;
    } else {
      start := if currentPage - 2 < 1 then 1 else currentPage - 2;
      end := if totalPages < start + MaxVisiblePages - 1 then totalPages else start + MaxVisiblePages - 1;
      if end - start < MaxVisiblePages - 1 {
        start := if end - MaxVisiblePages + 1 < 1 then 1 else end - MaxVisiblePages + 1;
      }
    }
    var i := start;
    while i <= end
      invariant start <= i <= if end < start then start else end + 1
      invariant pages == Range(start, i - 1)
    {
      pages := pages + [i];
      i := i + 1;
    }
  }

  /** Up to five pages every page is shown; beyond, five consecutive pages
      inside [1, totalPages] around the current one. */
  lemma PageWindowShape(currentPage: int, totalPages: nat)
    ensures var w := Range(PageWindow(currentPage, totalPages).0, PageWindow(currentPage, totalPages).1);
            (totalPages <= MaxVisiblePages ==> w == Range(1, totalPages)) &&
            (totalPages > MaxVisiblePages ==>
               |w| == MaxVisiblePages && 1 <= w[0] && w[|w| - 1] <= totalPages &&
               (1 <= currentPage <= totalPages ==> currentPage in w))
  {
    var (s, e) := PageWindow(currentPage, totalPages);
    if totalPages > MaxVisiblePages && 1 <= currentPage <= totalPages {
      var w := Range(s, e);
      assert w[currentPage - s] == currentPage;
    }
  }

  // ------------------------------------------------------------ the list's state

  /** The component's state: its `searchResults` prop, the status filter and
      the current page. */
  class ResultsList {
    var results: seq<SearchResult>
    var filter: StatusFilter
    var currentPage: int

    /** The results shown under the current filter, in sorted order. */
    function Shown(): seq<SearchResult>
      reads this
    {
      FilterResults(SortedResults(results), filter)
    }

    /** The current page lies in [1, totalPages], or is 1 when there is no
        page at all. */
    predicate Valid()
      reads this
    {
      1 <= currentPage && (currentPage <= TotalPages(|Shown()|) || currentPage == 1)
    }

    /** The results on the current page. */
    function CurrentResults(): seq<SearchResult>
      reads this
      requires Valid()
    {
      PageOf(Shown(), currentPage)
    }

    constructor(results: seq<SearchResult>)
      ensures this.results == results && filter == AllStatuses && currentPage == 1
      ensures Valid()
    {
      this.results := results;
      filter := AllStatuses;
      currentPage := 1;
    }

    /** New results from the parent: back to page 1. */
    method SetResults(newResults: seq<SearchResult>)
      modifies this
      ensures results == newResults && filter == old(filter) && currentPage == 1
      ensures Valid()
    {
      results := newResults;
      currentPage := 1;
    }

    /** `handleStatusFilter`: a different filter sends the list back to
        page 1, through the effect keyed on the filter; choosing the filter
        already active changes no state, so the page stays. */
    method SetFilter(newFilter: StatusFilter)
      requires Valid()
      modifies this
      ensures filter == newFilter && results == old(results)
      ensures currentPage == if newFilter == old(filter) then old(currentPage) else 1
      ensures Valid()
    {
      if newFilter != filter {
        filter := newFilter;
        currentPage := 1;
      }
    }

    /** `goToPage`, as a page button calls it. */
    method GoToPage(page: int)
      modifies this
      ensures currentPage == page && results == old(results) && filter == old(filter)
      ensures 1 <= page <= TotalPages(|Shown()|) ==> Valid()
    {
      currentPage := page;
    }

    /** `goToPreviousPage`. */
    method GoToPreviousPage()
      requires Valid()
      modifies this
      ensures currentPage == if old(currentPage) > 1 then old(currentPage) - 1 else old(currentPage)
      ensures results == old(results) && filter == old(filter)
      ensures Valid()
    {
      if currentPage > 1 {
        currentPage := currentPage - 1;
      }
    }

    /** `goToNextPage`. */
    method GoToNextPage()
      requires Valid()
      modifies this
      ensures var t := TotalPages(|Shown()|);
              currentPage == if old(currentPage) < t then old(currentPage) + 1 else old(currentPage)
      ensures results == old(results) && filter == old(filter)
      ensures Valid()
    {
      if currentPage < TotalPages(|Shown()|) {
        currentPage := currentPage + 1;
      }
    }
  }
}
