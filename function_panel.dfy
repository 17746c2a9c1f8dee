/**
 * The toolbar above the product and order lists (`FunctionPanel` in
 * src/components/FunctionPanel.tsx): a search box that can be shown and hidden, a grid/list
 * switch and a button cycling through the price sort options.
 */
module FunctionPanel {
  import opened Wrappers
  import opened Seqs
  import opened Context

  datatype ViewMode = Grid | List

  /** The order the sort button steps through. */
  const SortCycle: seq<SortOption> := [PriceHighToLow, PriceLowToHigh, Default]

  /** `options.indexOf(option)`: the first position holding `option`, or -1. */
  function IndexOf(options: seq<SortOption>, option: SortOption): (i: int)
    ensures -1 <= i < |options|
    ensures i >= 0 ==> options[i] == option && forall j :: 0 <= j < i ==> options[j] != option
    ensures i == -1 ==> forall j :: 0 <= j < |options| ==> options[j] != option
  {
    if options == [] then -1
    else if options[0] == option then 0
    else
      var k := IndexOf(options[1..], option);
      if k == -1 then -1 else k + 1
  }

  /** `options[(currentIndex + 1) % options.length]`; the operand is never negative here. */
  function OptionAfterIndex(i: int): SortOption
    requires -1 <= i < |SortCycle|
  {
    SortCycle[(i + 1) % |SortCycle|]
  }

  function NextSortOption(option: SortOption): SortOption {
    OptionAfterIndex(IndexOf(SortCycle, option))
  }

  /** High-to-low goes to low-to-high, low-to-high to default, default back to high-to-low. */
  lemma SortCycleSteps()
    ensures NextSortOption(PriceHighToLow) == PriceLowToHigh
    ensures NextSortOption(PriceLowToHigh) == Default
    ensures NextSortOption(Default) == PriceHighToLow
  {
    assert IndexOf(SortCycle, PriceHighToLow) == 0;
    assert IndexOf(SortCycle, PriceLowToHigh) == 1;
    assert IndexOf(SortCycle, Default) == 2;
  }

  /** Three presses bring the sort option back to where it started; fewer never do. */
  lemma SortCycleHasPeriodThree(option: SortOption)
    ensures NextSortOption(NextSortOption(NextSortOption(option))) == option
    ensures NextSortOption(option) != option
    ensures NextSortOption(NextSortOption(option)) != option
  {
    SortCycleSteps();
  }

  /**
   * The next index always lies in [0, 3); an option missing from the list (index -1) would
   * lead to high-to-low, but every option is in the list.
   */
  lemma NextIndexInRange(i: int, option: SortOption)
    requires -1 <= i < |SortCycle|
    ensures 0 <= (i + 1) % |SortCycle| < |SortCycle|
    ensures i == -1 ==> OptionAfterIndex(i) == PriceHighToLow
    ensures IndexOf(SortCycle, option) != -1
  {
    SortCycleSteps();
  }

  function Flipped(mode: ViewMode): ViewMode {
    if mode == Grid then List else Grid
  }

  /** The view switch always changes the mode, and two presses restore it. */
  lemma FlipInvolution(mode: ViewMode)
    ensures Flipped(mode) != mode && Flipped(Flipped(mode)) == mode
  {
  }

  /** `setSearchFilters({ query, type })`: the new filters carry no bounds at all. */
  function QueryFilters(kind: CollectionType, query: string): SearchFilters {
    SearchFilters(kind, query, None, None, None, None)
  }

  /** Once the search is closed (empty query), both list views show every item in stored order. */
  lemma ClosedSearchShowsEverything(kind: CollectionType, ps: seq<Product>, os: seq<Order>)
    ensures ProductsView(ps, QueryFilters(kind, ""), Default) == ps
    ensures OrdersView(os, QueryFilters(kind, ""), Default) == os
  {
    var f := QueryFilters(kind, "");
    Text.TrimEmpty();
    forall i | 0 <= i < |ps| ensures ProductPasses(f)(ps[i]) {
      assert f.kind == ProductsType ==> ProductMatches(ps[i], f);
    }
    forall i | 0 <= i < |os| ensures OrderPasses(f)(os[i]) {
      assert f.kind == OrdersType ==> OrderMatches(os[i], f);
    }
    FilterKeepsAll(ps, ProductPasses(f));
    FilterKeepsAll(os, OrderPasses(f));
  }

  class PanelState {
    /** The collection whose list the panel sits above. */
    const kind: CollectionType
    var isSearchVisible: bool
    var searchQuery: string
    var sortOption: SortOption
    var viewMode: ViewMode

    constructor (kind: CollectionType, viewMode: ViewMode)
      ensures this.kind == kind && this.viewMode == viewMode
      ensures !isSearchVisible && searchQuery == "" && sortOption == Default
    {
      this.kind := kind;
      this.viewMode := viewMode;
      isSearchVisible := false;
      searchQuery := "";
      sortOption := Default;
    }

    /** `handleSearchChange`: the box and the store's filters both take the typed text. */
    method HandleSearchChange(value: string, store: AppStore)
      modifies this`searchQuery, store`searchFilters
      ensures searchQuery == value
      ensures store.searchFilters == QueryFilters(kind, value)
    {
      searchQuery := value;
      store.SetSearchFilters(SearchFilters(kind, value, None, None, None, None));
    }

    /**
     * `toggleSearch`: opening only shows the box (focusing it is left out); closing hides it,
     * empties it and pushes an empty query to the store.
     */
    method ToggleSearch(store: AppStore)
      modifies this`isSearchVisible, this`searchQuery, store`searchFilters
      ensures isSearchVisible == !old(isSearchVisible)
      ensures old(isSearchVisible) ==> searchQuery == "" && store.searchFilters == QueryFilters(kind, "")
      ensures !old(isSearchVisible) ==>
        searchQuery == old(searchQuery) && store.searchFilters == old(store.searchFilters)
    {
      var wasVisible := isSearchVisible;
      isSearchVisible := !wasVisible;
      if wasVisible {
        HandleSearchChange("", store);
      }
    }

    method ToggleViewMode()
      modifies this`viewMode
      ensures viewMode == Flipped(old(viewMode))
    {
      viewMode := if viewMode == Grid then List else Grid;
    }

    /** `cycleSortOption`: the panel's own option and the store's move to the next one together. */
    method CycleSortOption(store: AppStore)
      modifies this`sortOption, store`sortOption
      ensures sortOption == NextSortOption(old(sortOption))
      ensures store.sortOption == sortOption
    {
      var options := [PriceHighToLow, PriceLowToHigh, Default];
      var currentIndex := IndexOf(options, sortOption);
      var nextOption := options[(currentIndex + 1) % |options|];
      sortOption := nextOption;
      store.SetSortOption(nextOption);
    }
  }
}
