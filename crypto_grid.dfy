/**
  * The optimized market grid: the view state (search term, sort option,
  * favourite ids, favourites-only switch), the favourite toggle, and the
  * projection of the incoming records to the list the grid renders.
  */
module CryptoGrid {
  import opened Wrappers
  import opened Coins

  /** `toggleFavorite(id)` on a copy of the set: `id` leaves if present, joins otherwise. */
  function Toggle(favorites: set<string>, id: string): (r: set<string>)
    ensures id in r <==> id !in favorites
    ensures forall x :: x != id ==> (x in r <==> x in favorites)
  {
    if id in favorites then favorites - {id} else favorites + {id}
  }

  /** Toggling the same id twice gives back the set it started from. */
  lemma ToggleTwice(favorites: set<string>, id: string)
    ensures Toggle(Toggle(favorites, id), id) == favorites
  {
  }

  /** The filter of the grid: the search matches, and the id is a favourite when only favourites are shown. */
  predicate Shown(c: CoinRecord, term: string, onlyFavorites: bool, favorites: set<string>)
  {
    MatchesSearch(c, term) && (!onlyFavorites || c.id in favorites)
  }

  /** The records the filter keeps, in input order. */
  function FilteredRecords(data: seq<CoinRecord>, term: string, onlyFavorites: bool, favorites: set<string>): seq<CoinRecord>
  {
    Filter(data, c => Shown(c, term, onlyFavorites, favorites))
  }

  /**
    * `filteredAndSortedData`: nothing for missing or empty data; otherwise the
    * records the filter keeps, stably sorted by the selected option. The sort
    * works on the filter's fresh list, so the input is never reordered.
    */
  function FilteredAndSorted(data: Option<seq<CoinRecord>>, term: string, sortBy: string,
                             onlyFavorites: bool, favorites: set<string>): (r: seq<CoinRecord>)
    ensures data.None? || data.value == [] ==> r == []
    ensures data.Some? ==> multiset(r) == multiset(FilteredRecords(data.value, term, onlyFavorites, favorites))
  {
    if data.None? || data.value == [] then []
    else SortBy(SortKeyOf(sortBy), FilteredRecords(data.value, term, onlyFavorites, favorites))
  }

  /** Every rendered record matches the search, and is a favourite when only favourites are shown. */
  lemma RenderedAreShown(data: Option<seq<CoinRecord>>, term: string, sortBy: string,
                         onlyFavorites: bool, favorites: set<string>)
    ensures var r := FilteredAndSorted(data, term, sortBy, onlyFavorites, favorites);
      forall i :: 0 <= i < |r| ==>
        data.Some? && r[i] in data.value && MatchesSearch(r[i], term) && (onlyFavorites ==> r[i].id in favorites)
  {
    var r := FilteredAndSorted(data, term, sortBy, onlyFavorites, favorites);
    forall i | 0 <= i < |r|
      ensures data.Some? && r[i] in data.value && MatchesSearch(r[i], term) && (onlyFavorites ==> r[i].id in favorites)
    {
      assert r[i] in multiset(r);
    }
  }

  /** A record of the input is rendered exactly when it passes the filter, as often as it occurs. */
  lemma RenderedExactly(data: seq<CoinRecord>, term: string, sortBy: string,
                        onlyFavorites: bool, favorites: set<string>, c: CoinRecord)
    ensures multiset(FilteredAndSorted(Some(data), term, sortBy, onlyFavorites, favorites))[c]
      == if Shown(c, term, onlyFavorites, favorites) then multiset(data)[c] else 0
  {
    FilterMultiset(data, c => Shown(c, term, onlyFavorites, favorites), c);
  }

  /** With an empty search and the favourites switch off, the grid renders a rearrangement of its whole input. */
  lemma EverythingShownByDefault(data: seq<CoinRecord>, sortBy: string, favorites: set<string>)
    ensures multiset(FilteredAndSorted(Some(data), "", sortBy, false, favorites)) == multiset(data)
  {
    forall i | 0 <= i < |data| ensures Shown(data[i], "", false, favorites) {
      EmptyTermMatchesAll(data[i]);
    }
    FilterKeepsAll(data, c => Shown(c, "", false, favorites));
  }

  /** With the favourites switch off, the favourite set has no effect on the rendered list. */
  lemma FavoritesIgnoredWhenOff(data: Option<seq<CoinRecord>>, term: string, sortBy: string,
                                f1: set<string>, f2: set<string>)
    ensures FilteredAndSorted(data, term, sortBy, false, f1) == FilteredAndSorted(data, term, sortBy, false, f2)
  {
    if data.Some? {
      FilterCongruent(data.value, c => Shown(c, term, false, f1), c => Shown(c, term, false, f2));
    }
  }

  /** For a numeric option the list is non-increasing in that figure, a missing figure counting as 0. */
  lemma NumericSortDescending(data: Option<seq<CoinRecord>>, term: string, sortBy: string,
                              onlyFavorites: bool, favorites: set<string>)
    requires sortBy in {"market_cap", "price", "change_24h", "volume"}
    ensures var r := FilteredAndSorted(data, term, sortBy, onlyFavorites, favorites);
      forall i, j :: 0 <= i < j < |r| ==> KeyValue(SortKeyOf(sortBy), r[i]) >= KeyValue(SortKeyOf(sortBy), r[j])
  {
    if data.Some? && data.value != [] {
      SortByNonIncreasing(SortKeyOf(sortBy), FilteredRecords(data.value, term, onlyFavorites, favorites));
    }
  }

  /** The `name` option lists names in ascending order. */
  lemma NameSortAscending(data: Option<seq<CoinRecord>>, term: string, onlyFavorites: bool, favorites: set<string>)
    ensures var r := FilteredAndSorted(data, term, "name", onlyFavorites, favorites);
      forall i, j :: 0 <= i < j < |r| ==> !Text.LexLess(r[j].name, r[i].name)
  {
    if data.Some? && data.value != [] {
      SortByNameAscending(FilteredRecords(data.value, term, onlyFavorites, favorites));
    }
  }

  /** Any other option compares every pair equal, so the filtered order is kept. */
  lemma UnknownSortKeepsOrder(data: seq<CoinRecord>, term: string, sortBy: string,
                              onlyFavorites: bool, favorites: set<string>)
    requires sortBy !in {"market_cap", "price", "change_24h", "volume", "name"}
    ensures FilteredAndSorted(Some(data), term, sortBy, onlyFavorites, favorites)
      == FilteredRecords(data, term, onlyFavorites, favorites)
  {
    SortByUnorderedKeepsOrder(FilteredRecords(data, term, onlyFavorites, favorites));
  }

  /** The grid's own state cells. */
  class GridState {
    var searchTerm: string
    var sortBy: string
    var favorites: set<string>
    var showOnlyFavorites: bool

    /** The initial `useState` values: no search, market-cap order, no favourites, all shown. */
    constructor()
      ensures searchTerm == "" && sortBy == "market_cap"
      ensures favorites == {} && !showOnlyFavorites
    {
      searchTerm := "";
      sortBy := "market_cap";
      favorites := {};
      showOnlyFavorites := false;
    }

    /** `toggleFavorite(id)`: flips `id` in the favourite set and changes nothing else. */
    method ToggleFavorite(id: string)
      modifies this
      ensures favorites == Toggle(old(favorites), id)
      ensures searchTerm == old(searchTerm) && sortBy == old(sortBy)
      ensures showOnlyFavorites == old(showOnlyFavorites)
    {
      favorites := Toggle(favorites, id);
    }

    /** `handleSearchChange`: the typed text becomes the search term. */
    method SetSearchTerm(term: string)
      modifies this
      ensures searchTerm == term
      ensures sortBy == old(sortBy) && favorites == old(favorites) && showOnlyFavorites == old(showOnlyFavorites)
    {
      searchTerm := term;
    }

    /** `handleSortChange`: the selected option becomes the sort key. */
    method SetSortBy(option: string)
      modifies this
      ensures sortBy == option
      ensures searchTerm == old(searchTerm) && favorites == old(favorites) && showOnlyFavorites == old(showOnlyFavorites)
    {
      sortBy := option;
    }

    /** The favourites-only button: flips the switch. */
    method ToggleShowOnlyFavorites()
      modifies this
      ensures showOnlyFavorites == !old(showOnlyFavorites)
      ensures searchTerm == old(searchTerm) && sortBy == old(sortBy) && favorites == old(favorites)
    {
      showOnlyFavorites := !showOnlyFavorites;
    }

    /** The list the grid renders for `data` in the current state; the state is only read. */
    method Rendered(data: Option<seq<CoinRecord>>) returns (r: seq<CoinRecord>)
      ensures r == FilteredAndSorted(data, searchTerm, sortBy, showOnlyFavorites, favorites)
      ensures forall i :: 0 <= i < |r| ==> MatchesSearch(r[i], searchTerm)
      ensures showOnlyFavorites ==> forall i :: 0 <= i < |r| ==> r[i].id in favorites
    {
      r := FilteredAndSorted(data, searchTerm, sortBy, showOnlyFavorites, favorites);
      RenderedAreShown(data, searchTerm, sortBy, showOnlyFavorites, favorites);
    }
  }
}
