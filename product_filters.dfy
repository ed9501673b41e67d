/**
 * The filter panel above the product grid: search box, category pills, price
 * presets and availability buttons. The panel keeps its own record of the
 * selected preset and availability, and reports every change to the page
 * through the page's setters.
 */
module ProductFilters {
  import opened Optional
  import opened Catalog
  import opened ProductsPage
  import opened ProductsPageExamples

  /** A category pill: the id sent to the page and the caption shown. */
  datatype CategoryPill = CategoryPill(id: string, caption: string)

  const Categories: seq<CategoryPill> := [
    CategoryPill("all", "All Products"),
    CategoryPill("sleep", "Sleep & Relaxation"),
    CategoryPill("energy", "Energy & Focus"),
    CategoryPill("wellness", "Wellness & Balance"),
    CategoryPill("clarity", "Mental Clarity"),
    CategoryPill("immunity", "Immune Support"),
    CategoryPill("digestive", "Digestive Health")]

  /** A price preset button: its caption and its dollar window. */
  datatype PricePreset = PricePreset(caption: string, range: PriceRange)

  const PriceRanges: seq<PricePreset> := [
    PricePreset("Under $25", PriceRange(0, 25)),
    PricePreset("$25 - $35", PriceRange(25, 35)),
    PricePreset("$35 - $50", PriceRange(35, 50)),
    PricePreset("Over $50", PriceRange(50, 1000))]

  /** One of the four preset windows. */
  predicate IsPreset(range: PriceRange)
  {
    exists k | 0 <= k < |PriceRanges| :: PriceRanges[k].range == range
  }

  /** The window the page holds for a panel selection: the preset, or [0, 1000] for none. */
  function ReportedRange(selected: Option<PriceRange>): PriceRange
  {
    if selected.Some? then selected.value else FullRange
  }

  /**
   * A click on a price preset: the new selection, and the window reported to
   * the page. The selected preset is deselected; any other is selected.
   */
  function PriceClick(selected: Option<PriceRange>, range: PriceRange): (r: (Option<PriceRange>, PriceRange))
    ensures r.0 == None <==> selected == Some(range)
    ensures r.0 != None ==> r.0 == Some(range)
    ensures r.1 == ReportedRange(r.0)
  {
    if selected == Some(range) then (None, FullRange) else (Some(range), range)
  }

  /**
   * A click on an availability button: the new choice, which is also what is
   * reported. Clicking the active choice resets it to `null`.
   */
  function AvailabilityClick(current: Option<bool>, clicked: Option<bool>): (r: Option<bool>)
    ensures r == None <==> current == clicked || clicked == None
    ensures r != None ==> r == clicked
  {
    if current == clicked then None else clicked
  }

  /** From no selection, or from the clicked preset, two clicks on it restore the selection. */
  lemma PriceClickTwice(selected: Option<PriceRange>, range: PriceRange)
    requires selected == None || selected == Some(range)
    ensures PriceClick(PriceClick(selected, range).0, range).0 == selected
  {
  }

  /** Starting from no availability filter, clicking the same button twice gives `null` again. */
  lemma AvailabilityClickTwice(clicked: Option<bool>)
    ensures AvailabilityClick(AvailabilityClick(None, clicked), clicked) == None
  {
  }

  /** No preset window is [0, 1000], so a selected preset always filters. */
  lemma PresetsAreNotFull(range: PriceRange)
    requires IsPreset(range)
    ensures range != FullRange
  {
  }

  /** Consecutive presets share their inner endpoint. */
  lemma PresetsAreAdjacent(k: nat)
    requires k + 1 < |PriceRanges|
    ensures PriceRanges[k].range.max == PriceRanges[k + 1].range.min
  {
  }

  /**
   * Because the window is inclusive at both ends, a product priced exactly at
   * a shared endpoint passes both presets, and that is the only way a product
   * can pass two presets.
   */
  lemma PresetsOverlapAtEndpoints(p: Product, k: nat, m: nat)
    requires k < m < |PriceRanges|
    ensures InPriceRange(p, PriceRanges[k].range) && InPriceRange(p, PriceRanges[m].range)
      <==> m == k + 1 && PriceCents(p) == Some(PriceRanges[k].range.max * 100)
  {
  }

  /**
   * The "Mental Clarity" and "Digestive Health" pills select ids that no
   * catalog tag contains or is contained in, so either one empties the grid.
   */
  lemma DeadCategoryPills(k: nat)
    requires k == 4 || k == 6
    ensures Categories[k].id == "clarity" || Categories[k].id == "digestive"
    ensures Select(AllProducts, DefaultCriteria.(activeCategory := Categories[k].id)) == []
  {
    if k == 4 {
      ClarityCategoryResult();
    } else {
      DigestiveCategoryResult();
    }
  }

  /** The panel's state. `page` is the products page whose setters are its callbacks. */
  class ProductFilterPanel {
    const page: ProductsPage
    var isFiltersOpen: bool
    var selectedPriceRange: Option<PriceRange>
    var availabilityFilter: Option<bool>

    /** The page holds what the panel last reported: its preset (or [0, 1000]) and its availability. */
    ghost predicate Mirrors()
      reads this, page
    {
      page.priceRange == ReportedRange(selectedPriceRange) && page.availabilityFilter == availabilityFilter
    }

    /** The selection is empty or one of the preset windows. */
    ghost predicate SelectionIsPreset()
      reads this
    {
      selectedPriceRange.None? || IsPreset(selectedPriceRange.value)
    }

    /**
     * Whether "Clear All Filters" is shown: only with the advanced filters
     * open, and only when a preset, an availability, a category other than
     * "all" or a query is set.
     */
    function ShowsClearButton(): (r: bool)
      reads this, page
      ensures r ==> isFiltersOpen
      ensures isFiltersOpen && !r ==> selectedPriceRange == None && availabilityFilter == None
      ensures isFiltersOpen && !r ==> page.activeCategory == "all" && page.searchQuery == ""
    {
      isFiltersOpen
      && (selectedPriceRange.Some? || availabilityFilter.Some? || page.activeCategory != "all" || page.searchQuery != "")
    }

    /** Whether the preset with window `range` is highlighted. */
    function PresetHighlighted(range: PriceRange): bool
      reads this
    {
      selectedPriceRange == Some(range)
    }

    /** The panel as first rendered for `page`: closed, nothing selected. */
    constructor (page: ProductsPage)
      ensures this.page == page
      ensures !isFiltersOpen && selectedPriceRange == None && availabilityFilter == None
    {
      this.page := page;
      isFiltersOpen := false;
      selectedPriceRange := None;
      availabilityFilter := None;
    }

    /**
     * With the advanced filters open and the page mirroring a preset
     * selection, the clear button is shown exactly when the page shows its
     * "Filtered Results" badge.
     */
    lemma ClearButtonMatchesBadge()
      requires Mirrors() && SelectionIsPreset() && isFiltersOpen
      ensures ShowsClearButton() <==> page.ShowsFilteredBadge()
    {
      if selectedPriceRange.Some? {
        PresetsAreNotFull(selectedPriceRange.value);
      }
    }

    /** Show or hide the advanced filters. */
    method ToggleFiltersOpen()
      modifies this
      ensures isFiltersOpen == !old(isFiltersOpen)
      ensures selectedPriceRange == old(selectedPriceRange) && availabilityFilter == old(availabilityFilter)
    {
      isFiltersOpen := !isFiltersOpen;
    }

    /** Typing in the search box sends the text to the page. */
    method SearchChange(query: string)
      modifies page
      ensures page.Valid() && page.CurrentCriteria() == old(page.CurrentCriteria()).(searchQuery := query)
      ensures page.favorites == old(page.favorites) && page.selectedProduct == old(page.selectedProduct)
      ensures page.isModalOpen == old(page.isModalOpen)
    {
      page.SetSearchQuery(query);
    }

    /** The small clear button inside the search box. */
    method ClearSearch()
      modifies page
      ensures page.Valid() && page.CurrentCriteria() == old(page.CurrentCriteria()).(searchQuery := "")
      ensures page.favorites == old(page.favorites) && page.selectedProduct == old(page.selectedProduct)
      ensures page.isModalOpen == old(page.isModalOpen)
    {
      page.SetSearchQuery("");
    }

    /** `handleCategoryClick`: the pill's id goes to the page. */
    method HandleCategoryClick(categoryId: string)
      modifies page
      ensures page.Valid() && page.CurrentCriteria() == old(page.CurrentCriteria()).(activeCategory := categoryId)
      ensures page.favorites == old(page.favorites) && page.selectedProduct == old(page.selectedProduct)
      ensures page.isModalOpen == old(page.isModalOpen)
    {
      page.SetActiveCategory(categoryId);
    }

    /** `handlePriceRangeClick`. */
    method HandlePriceRangeClick(range: PriceRange)
      modifies this, page
      ensures (selectedPriceRange, page.priceRange) == PriceClick(old(selectedPriceRange), range)
      ensures availabilityFilter == old(availabilityFilter) && isFiltersOpen == old(isFiltersOpen)
      ensures page.Valid() && page.CurrentCriteria() == old(page.CurrentCriteria()).(priceRange := page.priceRange)
      ensures page.favorites == old(page.favorites) && page.selectedProduct == old(page.selectedProduct)
      ensures page.isModalOpen == old(page.isModalOpen)
      ensures old(Mirrors()) ==> Mirrors()
      ensures old(SelectionIsPreset()) && IsPreset(range) ==> SelectionIsPreset()
    {
      if selectedPriceRange == Some(range) {
        selectedPriceRange := None;
        page.SetPriceRange(FullRange);
      } else {
        selectedPriceRange := Some(range);
        page.SetPriceRange(range);
      }
    }

    /** `handleAvailabilityClick`. */
    method HandleAvailabilityClick(available: Option<bool>)
      modifies this, page
      ensures availabilityFilter == AvailabilityClick(old(availabilityFilter), available)
      ensures page.availabilityFilter == availabilityFilter
      ensures selectedPriceRange == old(selectedPriceRange) && isFiltersOpen == old(isFiltersOpen)
      ensures page.Valid()
      ensures page.CurrentCriteria() == old(page.CurrentCriteria()).(availabilityFilter := availabilityFilter)
      ensures page.favorites == old(page.favorites) && page.selectedProduct == old(page.selectedProduct)
      ensures page.isModalOpen == old(page.isModalOpen)
      ensures old(Mirrors()) ==> Mirrors()
    {
      if availabilityFilter == available {
        availabilityFilter := None;
        page.SetAvailabilityFilter(None);
      } else {
        availabilityFilter := available;
        page.SetAvailabilityFilter(available);
      }
    }

    /**
     * `clearAllFilters`: both local selections are dropped and the page gets
     * [0, 1000], `null`, "all" and "".
     */
    method ClearAllFilters()
      modifies this, page
      ensures selectedPriceRange == None && availabilityFilter == None && isFiltersOpen == old(isFiltersOpen)
      ensures page.Valid() && page.CurrentCriteria() == DefaultCriteria
      ensures page.filteredProducts == AllProducts
      ensures page.favorites == old(page.favorites) && page.selectedProduct == old(page.selectedProduct)
      ensures page.isModalOpen == old(page.isModalOpen)
      ensures Mirrors() && SelectionIsPreset() && !ShowsClearButton()
    {
      selectedPriceRange := None;
      availabilityFilter := None;
      page.SetPriceRange(FullRange);
      page.SetAvailabilityFilter(None);
      page.SetActiveCategory("all");
      page.SetSearchQuery("");
      DefaultsSelectAll();
    }
  }

  /**
   * The page's empty-state "Clear All Filters", as written, after "Over $50"
   * emptied the grid: the page is back to its defaults, but the panel still
   * highlights "Over $50" and still shows its own clear button while the
   * badge is gone, and clicking "Over $50" again deselects it instead of
   * applying it.
   */
  method EmptyStateClearAsWritten() returns (gridWasEmpty: bool, presetHighlighted: bool, badgeShown: bool,
                                             clearButtonShown: bool, windowAfterReclick: PriceRange)
    ensures gridWasEmpty && presetHighlighted && !badgeShown && clearButtonShown
    ensures windowAfterReclick == FullRange
  {
    var page := new ProductsPage();
    var panel := new ProductFilterPanel(page);
    var overFifty := PriceRanges[3].range;
    panel.ToggleFiltersOpen();
    panel.HandlePriceRangeClick(overFifty);
    OverFiftyResult();
    gridWasEmpty := page.filteredProducts == [];
    page.ClearFromEmptyState();
    presetHighlighted := panel.PresetHighlighted(overFifty);
    badgeShown := page.ShowsFilteredBadge();
    clearButtonShown := panel.ShowsClearButton();
    panel.HandlePriceRangeClick(overFifty);
    windowAfterReclick := page.priceRange;
  }

  /**
   * The corrected empty-state button: it runs the panel's `clearAllFilters`,
   * so the panel's own selections are dropped along with the page's criteria.
   */
  method EmptyStateClearCorrected() returns (gridWasEmpty: bool, presetHighlighted: bool, badgeShown: bool,
                                             clearButtonShown: bool, windowAfterReclick: PriceRange)
    ensures gridWasEmpty && !presetHighlighted && !badgeShown && !clearButtonShown
    ensures windowAfterReclick == PriceRanges[3].range
  {
    var screen := new ProductsScreen();
    var overFifty := PriceRanges[3].range;
    screen.ToggleFilters();
    screen.ClickPreset(overFifty);
    OverFiftyResult();
    gridWasEmpty := screen.page.filteredProducts == [];
    screen.ClearFromEmptyState();
    presetHighlighted := screen.filters.PresetHighlighted(overFifty);
    badgeShown := screen.page.ShowsFilteredBadge();
    clearButtonShown := screen.filters.ShowsClearButton();
    screen.ClickPreset(overFifty);
    windowAfterReclick := screen.page.priceRange;
  }

  /**
   * The products page together with its filter panel, with the empty-state
   * button routed through the panel. Every action keeps the panel's
   * selections mirrored in the page and the grid equal to what the filter
   * chain selects.
   */
  class ProductsScreen {
    const page: ProductsPage
    const filters: ProductFilterPanel

    ghost predicate Valid()
      reads this, page, filters
    {
      filters.page == page && filters.Mirrors() && filters.SelectionIsPreset() && page.Valid()
    }

    constructor()
      ensures Valid() && fresh(page) && fresh(filters)
      ensures page.CurrentCriteria() == DefaultCriteria && page.filteredProducts == AllProducts
      ensures !filters.isFiltersOpen && filters.selectedPriceRange == None && filters.availabilityFilter == None
    {
      var p := new ProductsPage();
      page := p;
      filters := new ProductFilterPanel(p);
    }

    /** With the advanced filters open, the panel's clear button shows exactly when the badge does. */
    lemma ClearButtonIffBadge()
      requires Valid() && filters.isFiltersOpen
      ensures filters.ShowsClearButton() <==> page.ShowsFilteredBadge()
    {
      filters.ClearButtonMatchesBadge();
    }

    method ToggleFilters()
      requires Valid()
      modifies filters
      ensures Valid() && filters.isFiltersOpen == !old(filters.isFiltersOpen)
      ensures filters.selectedPriceRange == old(filters.selectedPriceRange)
      ensures filters.availabilityFilter == old(filters.availabilityFilter)
    {
      filters.ToggleFiltersOpen();
    }

    method ClickPreset(range: PriceRange)
      requires Valid() && IsPreset(range)
      modifies filters, page
      ensures Valid()
      ensures (filters.selectedPriceRange, page.priceRange) == PriceClick(old(filters.selectedPriceRange), range)
      ensures page.CurrentCriteria() == old(page.CurrentCriteria()).(priceRange := page.priceRange)
      ensures filters.availabilityFilter == old(filters.availabilityFilter)
      ensures filters.isFiltersOpen == old(filters.isFiltersOpen)
      ensures page.favorites == old(page.favorites) && page.selectedProduct == old(page.selectedProduct)
      ensures page.isModalOpen == old(page.isModalOpen)
    {
      filters.HandlePriceRangeClick(range);
    }

    method ClickAvailability(available: Option<bool>)
      requires Valid()
      modifies filters, page
      ensures Valid()
      ensures filters.availabilityFilter == AvailabilityClick(old(filters.availabilityFilter), available)
      ensures page.CurrentCriteria() == old(page.CurrentCriteria()).(availabilityFilter := filters.availabilityFilter)
      ensures filters.selectedPriceRange == old(filters.selectedPriceRange)
      ensures filters.isFiltersOpen == old(filters.isFiltersOpen)
      ensures page.favorites == old(page.favorites) && page.selectedProduct == old(page.selectedProduct)
      ensures page.isModalOpen == old(page.isModalOpen)
    {
      filters.HandleAvailabilityClick(available);
    }

    method ClickCategory(categoryId: string)
      requires Valid()
      modifies page
      ensures Valid()
      ensures page.CurrentCriteria() == old(page.CurrentCriteria()).(activeCategory := categoryId)
      ensures page.favorites == old(page.favorites) && page.selectedProduct == old(page.selectedProduct)
      ensures page.isModalOpen == old(page.isModalOpen)
    {
      filters.HandleCategoryClick(categoryId);
    }

    method TypeSearch(query: string)
      requires Valid()
      modifies page
      ensures Valid()
      ensures page.CurrentCriteria() == old(page.CurrentCriteria()).(searchQuery := query)
      ensures page.favorites == old(page.favorites) && page.selectedProduct == old(page.selectedProduct)
      ensures page.isModalOpen == old(page.isModalOpen)
    {
      filters.SearchChange(query);
    }

    /** The empty-state "Clear All Filters", routed through the panel. */
    method ClearFromEmptyState()
      requires Valid()
      modifies filters, page
      ensures Valid() && page.CurrentCriteria() == DefaultCriteria && page.filteredProducts == AllProducts
      ensures filters.selectedPriceRange == None && filters.availabilityFilter == None
      ensures !page.ShowsFilteredBadge() && !filters.ShowsClearButton()
      ensures filters.isFiltersOpen == old(filters.isFiltersOpen)
      ensures page.favorites == old(page.favorites) && page.selectedProduct == old(page.selectedProduct)
      ensures page.isModalOpen == old(page.isModalOpen)
    {
      filters.ClearAllFilters();
    }
  }
}
