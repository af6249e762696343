/** The search box the list pages share: a filter effect that re-runs whenever
    the list or the query changes, and the text shown for an empty table. */
module ListSearch {
  import opened Common

  const NoSearchResults: string := "Arama sonucu bulunamadı."

  /** The filter effect. A query that trims to "" (see `TrimEmptyIffBlank`) shows the whole list;
      otherwise the elements that `matches` the lower-cased (untrimmed) query,
      in their order. */
  function SearchResult<T>(list: seq<T>, searchQuery: string, matches: (T, string) -> bool): (r: seq<T>)
    ensures IsBlank(searchQuery) ==> r == list
    ensures |r| <= |list|
  {
    if IsBlank(searchQuery) then list
    else Filter(list, x => matches(x, ToLower(searchQuery)))
  }

  /** With a non-blank query an element is shown exactly when it is in the list
      and matches the lower-cased query. */
  lemma SearchMembership<T>(list: seq<T>, searchQuery: string, matches: (T, string) -> bool, x: T)
    requires !IsBlank(searchQuery)
    ensures x in SearchResult(list, searchQuery, matches) <==> x in list && matches(x, ToLower(searchQuery))
  {
    FilterMembership(list, x => matches(x, ToLower(searchQuery)), x);
  }

  /** The result keeps the list's order and never adds or repeats an element:
      each one is shown as often as it occurs in the list, or not at all. */
  lemma SearchIsSubsequence<T>(list: seq<T>, searchQuery: string, matches: (T, string) -> bool, x: T)
    ensures IsSubsequence(SearchResult(list, searchQuery, matches), list)
    ensures multiset(SearchResult(list, searchQuery, matches))[x] <= multiset(list)[x]
  {
    if IsBlank(searchQuery) {
      SubsequenceReflexive(list);
    } else {
      FilterIsSubsequence(list, x => matches(x, ToLower(searchQuery)));
      FilterCount(list, x => matches(x, ToLower(searchQuery)), x);
    }
  }

  /** The query is compared in lower case: queries that differ only in the case
      of ASCII letters give the same result. */
  lemma SearchIgnoresQueryCase<T>(list: seq<T>, q1: string, q2: string, matches: (T, string) -> bool)
    requires ToLower(q1) == ToLower(q2)
    ensures SearchResult(list, q1, matches) == SearchResult(list, q2, matches)
  {
    CaseKeepsBlankness(q1);
    CaseKeepsBlankness(q2);
  }

  /** The text of an empty table: a search message whenever the query box holds
      anything at all (spaces included), the page's own text otherwise; none
      while rows are shown. */
  function EmptyStateText<T>(filtered: seq<T>, searchQuery: string, noRecords: string): (t: Option<string>)
    ensures t.Some? <==> filtered == []
    ensures t.Some? ==> (t.value == NoSearchResults <==> searchQuery != "" || noRecords == NoSearchResults)
  {
    if filtered != [] then None
    else if searchQuery != "" then Some(NoSearchResults)
    else Some(noRecords)
  }

  /** A query of spaces over an empty list reports a failed search, though
      nothing was filtered. */
  lemma BlankQueryOnEmptyList<T>(searchQuery: string, matches: (T, string) -> bool, noRecords: string)
    requires searchQuery != "" && IsBlank(searchQuery)
    ensures SearchResult([], searchQuery, matches) == []
    ensures EmptyStateText(SearchResult([], searchQuery, matches), searchQuery, noRecords) == Some(NoSearchResults)
  {
  }

  /** A list page: the fetched list, the rows shown, the loading flag, the
      error and the query; `Valid` says the filter effect has run. */
  class ListPage<T> {
    var list: seq<T>
    var filtered: seq<T>
    var isLoading: bool
    var error: Option<string>
    var searchQuery: string
    const matches: (T, string) -> bool
    const loadError: string

    ghost predicate Valid()
      reads this
    {
      filtered == SearchResult(list, searchQuery, matches)
    }

    /** A freshly mounted page: nothing loaded, loading, no error, no query. */
    constructor (matches: (T, string) -> bool, loadError: string)
      ensures Valid()
      ensures list == [] && filtered == [] && isLoading && error == None && searchQuery == ""
      ensures this.matches == matches && this.loadError == loadError
    {
      list := [];
      filtered := [];
      isLoading := true;
      error := None;
      searchQuery := "";
      this.matches := matches;
      this.loadError := loadError;
    }

    /** The fetch on mount, then the filter effect: a success replaces the list
        and the shown rows with the fetched list (the query is still empty at
        mount); a failure sets the page's error; loading ends either way. */
    method Fetch(reply: Outcome<seq<T>>)
      requires Valid()
      modifies this
      ensures Valid() && !isLoading && searchQuery == old(searchQuery)
      ensures reply.Ok? ==> list == reply.data && error == old(error)
      ensures reply.Ok? && IsBlank(searchQuery) ==> filtered == reply.data
      ensures !reply.Ok? ==> list == old(list) && filtered == old(filtered) && error == Some(loadError)
    {
      isLoading := true;
      if reply.Ok? {
        // both lists take the fetched data; the list changed, so the filter
        // effect then recomputes the rows shown
        var shown := SearchResult(reply.data, searchQuery, matches);
        list, filtered, isLoading := reply.data, shown, false;
      } else {
        error, isLoading := Some(loadError), false;
      }
    }

    /** Typing in the search box, then the filter effect. */
    method Search(q: string)
      requires Valid()
      modifies this
      ensures Valid() && searchQuery == q
      ensures list == old(list) && isLoading == old(isLoading) && error == old(error)
    {
      searchQuery := q;
      filtered := SearchResult(list, searchQuery, matches);
    }
  }
}
