/**
 * The faculty submissions table: three filters (title search, category,
 * status) applied one after another, starting from pending-only.
 */
module ReviewSubmissions {
  import opened Achievements
  import opened Text
  import opened Seqs

  datatype Filters = Filters(searchTerm: string, category: string, status: string)

  datatype FilterKey = SearchTermKey | CategoryKey | StatusKey

  /** The filters the page starts with. */
  const DefaultFilters := Filters("", "all", "pending")

  predicate IsPending(a: Achievement) {
    a.status == "pending"
  }

  /** The list shown right after the fetch: the pending records. */
  function InitialList(data: seq<Achievement>): (r: seq<Achievement>)
    ensures IsSubsequence(r, data)
    ensures forall a :: a in r ==> a.status == "pending"
    ensures forall a :: a in data ==> multiset(r)[a] == if IsPending(a) then multiset(data)[a] else 0
  {
    FilterSpec(IsPending, data);
    Filter(IsPending, data)
  }

  predicate SearchMatches(f: Filters, a: Achievement) {
    f.searchTerm == "" || Includes(Lower(a.title), Lower(f.searchTerm))
  }

  predicate CategoryMatches(f: Filters, a: Achievement) {
    f.category == "all" || a.category == f.category
  }

  predicate StatusMatches(f: Filters, a: Achievement) {
    f.status == "all" || a.status == f.status
  }

  /** A record passes the pipeline iff it passes each of the three filters. */
  predicate Matches(f: Filters, a: Achievement) {
    SearchMatches(f, a) && CategoryMatches(f, a) && StatusMatches(f, a)
  }

  function SearchFilter(f: Filters): Achievement -> bool {
    a => SearchMatches(f, a)
  }

  function CategoryFilter(f: Filters): Achievement -> bool {
    a => CategoryMatches(f, a)
  }

  function StatusFilter(f: Filters): Achievement -> bool {
    a => StatusMatches(f, a)
  }

  function MatchesFilter(f: Filters): Achievement -> bool {
    a => Matches(f, a)
  }

  /**
   * The filter effect: the sequential filters, each skipped when its control
   * is empty or "all", select exactly the records matching all three
   * controls, in their original order.
   */
  method ApplyFilters(achievements: seq<Achievement>, filters: Filters) returns (result: seq<Achievement>)
    ensures result == Filter(MatchesFilter(filters), achievements)
    ensures IsSubsequence(result, achievements)
  {
    ghost var afterSearch := SearchFilter(filters);
    ghost var afterCategory := (a: Achievement) => SearchMatches(filters, a) && CategoryMatches(filters, a);
    result := achievements;
    if filters.searchTerm != "" {
      var p := (a: Achievement) => Includes(Lower(a.title), Lower(filters.searchTerm));
      FilterExtensional(p, afterSearch, achievements);
      result := Filter(p, result);
    } else {
      FilterKeepsAll(afterSearch, achievements);
    }
    assert result == Filter(afterSearch, achievements);
    if filters.category != "all" {
      var p := (a: Achievement) => a.category == filters.category;
      FilterFuse(afterSearch, p, afterCategory, achievements);
      result := Filter(p, result);
    } else {
      FilterExtensional(afterSearch, afterCategory, achievements);
    }
    assert result == Filter(afterCategory, achievements);
    if filters.status != "all" {
      var p := (a: Achievement) => a.status == filters.status;
      FilterFuse(afterCategory, p, MatchesFilter(filters), achievements);
      result := Filter(p, result);
    } else {
      FilterExtensional(afterCategory, MatchesFilter(filters), achievements);
    }
    FilterSpec(MatchesFilter(filters), achievements);
  }

  /** Running the three filters in the opposite order selects the same records. */
  lemma ReverseOrderSameResult(achievements: seq<Achievement>, f: Filters)
    ensures Filter(SearchFilter(f), Filter(CategoryFilter(f), Filter(StatusFilter(f), achievements)))
            == Filter(MatchesFilter(f), achievements)
  {
    var tc := (a: Achievement) => StatusMatches(f, a) && CategoryMatches(f, a);
    FilterFuse(StatusFilter(f), CategoryFilter(f), tc, achievements);
    FilterFuse(tc, SearchFilter(f), MatchesFilter(f), achievements);
  }

  /** Under the default filters the pipeline shows exactly the initial pending-only list. */
  lemma DefaultFiltersShowPending(achievements: seq<Achievement>)
    ensures Filter(MatchesFilter(DefaultFilters), achievements) == InitialList(achievements)
  {
    FilterExtensional(MatchesFilter(DefaultFilters), IsPending, achievements);
  }

  /** An empty search and "all" for both selects let every record through. */
  lemma OpenFiltersKeepAll(achievements: seq<Achievement>)
    ensures Filter(MatchesFilter(Filters("", "all", "all")), achievements) == achievements
  {
    FilterKeepsAll(MatchesFilter(Filters("", "all", "all")), achievements);
  }

  /** `handleFilterChange`: sets the named control and leaves the other two as they were. */
  function HandleFilterChange(f: Filters, key: FilterKey, value: string): (r: Filters)
    ensures r.searchTerm == if key == SearchTermKey then value else f.searchTerm
    ensures r.category == if key == CategoryKey then value else f.category
    ensures r.status == if key == StatusKey then value else f.status
  {
    match key
    case SearchTermKey => f.(searchTerm := value)
    case CategoryKey => f.(category := value)
    case StatusKey => f.(status := value)
  }

  /** Changes to different controls commute, and a later change to the same control wins. */
  lemma FilterChangesCommute(f: Filters, k1: FilterKey, v1: string, k2: FilterKey, v2: string)
    ensures k1 != k2 ==>
              HandleFilterChange(HandleFilterChange(f, k1, v1), k2, v2)
              == HandleFilterChange(HandleFilterChange(f, k2, v2), k1, v1)
    ensures HandleFilterChange(HandleFilterChange(f, k1, v1), k1, v2) == HandleFilterChange(f, k1, v2)
  {
  }
}
