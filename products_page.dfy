/**
 * The products page: the four-step filter chain its effect runs over the
 * catalog, the "Filtered Results" badge, the favourites toggle, the product
 * modal selection and the empty-state "Clear All Filters" button.
 */
module ProductsPage {
  import opened Optional
  import opened Text
  import opened Seqs
  import opened Catalog
  import Favorites

  /** An inclusive price window in whole dollars, `[min, max]`. */
  datatype PriceRange = PriceRange(min: int, max: int)

  /** The window that excludes no catalog price. */
  const FullRange := PriceRange(0, 1000)

  /** The four pieces of page state the filter effect depends on. */
  datatype Criteria = Criteria(
    searchQuery: string,
    activeCategory: string,
    priceRange: PriceRange,
    availabilityFilter: Option<bool>)

  /** The initial criteria, and the ones both clear buttons restore. */
  const DefaultCriteria := Criteria("", "all", FullRange, None)

  /**
   * The search test: the lower-cased query occurs in the lower-cased name,
   * description, some tag or some ingredient.
   */
  predicate SearchHit(p: Product, query: string)
  {
    var q := Lower(query);
    Includes(Lower(p.name), q)
    || Includes(Lower(p.description), q)
    || (exists tag | tag in p.tags :: Includes(Lower(tag), q))
    || (exists ingredient | ingredient in p.ingredients :: Includes(Lower(ingredient), q))
  }

  /** The search step: skipped for the empty query. */
  predicate MatchesSearch(p: Product, query: string)
  {
    query == "" || SearchHit(p, query)
  }

  /** A tag and a category match when either contains the other, ignoring case. */
  predicate TagMatchesCategory(tag: string, category: string)
  {
    EitherIncludes(tag, category)
  }

  /** The category test: some tag matches the category. */
  predicate CategoryHit(p: Product, category: string)
  {
    exists tag | tag in p.tags :: TagMatchesCategory(tag, category)
  }

  /** The category step: skipped for "all". */
  predicate MatchesCategory(p: Product, category: string)
  {
    category == "all" || CategoryHit(p, category)
  }

  /**
   * The price step: the price read from its text lies inside the window,
   * both ends included. A price that does not read as a number (NaN) fails
   * both comparisons.
   */
  predicate InPriceRange(p: Product, range: PriceRange)
  {
    match PriceCents(p)
    case None => false
    case Some(cents) => range.min * 100 <= cents <= range.max * 100
  }

  /** The availability step: skipped for `null`, otherwise an exact `inStock` match. */
  predicate MatchesAvailability(p: Product, availability: Option<bool>)
  {
    match availability
    case None => true
    case Some(wanted) => p.inStock == wanted
  }

  /** A product survives the whole chain. */
  predicate Keeps(p: Product, c: Criteria)
  {
    MatchesSearch(p, c.searchQuery)
    && MatchesCategory(p, c.activeCategory)
    && InPriceRange(p, c.priceRange)
    && MatchesAvailability(p, c.availabilityFilter)
  }

  /** `Keeps` as a test to filter by. */
  function KeepTest(c: Criteria): Product -> bool
  {
    p => Keeps(p, c)
  }

  /** The products that survive the chain, in their original order. */
  function Select(products: seq<Product>, c: Criteria): (r: seq<Product>)
    ensures forall p :: p in r <==> p in products && Keeps(p, c)
    ensures IsSubsequence(r, products)
  {
    FilterMembers(products, KeepTest(c));
    FilterIsSubsequence(products, KeepTest(c));
    Filter(products, KeepTest(c))
  }

  /** The steps of the chain. */
  datatype Stage = Search | Category | Price | Availability

  /** One step's test, including the guard that skips it. */
  predicate Passes(stage: Stage, p: Product, c: Criteria)
  {
    match stage
    case Search => MatchesSearch(p, c.searchQuery)
    case Category => MatchesCategory(p, c.activeCategory)
    case Price => InPriceRange(p, c.priceRange)
    case Availability => MatchesAvailability(p, c.availabilityFilter)
  }

  function StageTest(stage: Stage, c: Criteria): Product -> bool
  {
    p => Passes(stage, p, c)
  }

  /** The steps run one after another, in the order given. */
  function RunStages(products: seq<Product>, stages: seq<Stage>, c: Criteria): seq<Product>
    decreases |stages|
  {
    if stages == [] then products
    else RunStages(Filter(products, StageTest(stages[0], c)), stages[1..], c)
  }

  /** Every listed step passes. */
  predicate PassesAll(stages: seq<Stage>, p: Product, c: Criteria)
  {
    forall k | 0 <= k < |stages| :: Passes(stages[k], p, c)
  }

  function PassesAllTest(stages: seq<Stage>, c: Criteria): Product -> bool
  {
    p => PassesAll(stages, p, c)
  }

  /** Running steps in sequence is one filter by their conjunction. */
  lemma {:induction false} RunStagesIsOneFilter(products: seq<Product>, stages: seq<Stage>, c: Criteria)
    ensures RunStages(products, stages, c) == Filter(products, PassesAllTest(stages, c))
    decreases |stages|
  {
    if stages == [] {
      FilterKeepsAll(products, PassesAllTest(stages, c));
    } else {
      var first := StageTest(stages[0], c);
      var rest := stages[1..];
      RunStagesIsOneFilter(Filter(products, first), rest, c);
      forall p ensures PassesAllTest(stages, c)(p) == (first(p) && PassesAllTest(rest, c)(p)) {
        if first(p) && PassesAll(rest, p, c) {
          forall k | 0 <= k < |stages| ensures Passes(stages[k], p, c) {
            if k > 0 {
              assert stages[k] == rest[k - 1];
            }
          }
        }
      }
      FilterTwice(products, first, PassesAllTest(rest, c), PassesAllTest(stages, c));
    }
  }

  /** Passing every step of a list that names all four is passing the chain. */
  lemma PassesAllIsKeeps(stages: seq<Stage>, p: Product, c: Criteria)
    requires Search in stages && Category in stages && Price in stages && Availability in stages
    ensures PassesAll(stages, p, c) == Keeps(p, c)
  {
    if PassesAll(stages, p, c) {
      forall stage: Stage ensures Passes(stage, p, c) {
        var i :| 0 <= i < |stages| && stages[i] == stage;
      }
      assert Passes(Search, p, c) && Passes(Category, p, c);
      assert Passes(Price, p, c) && Passes(Availability, p, c);
    }
  }

  /**
   * The order of the steps does not matter: any sequence of steps that
   * includes each of the four selects the same products as the chain.
   */
  lemma StageOrderIrrelevant(products: seq<Product>, stages: seq<Stage>, c: Criteria)
    requires Search in stages && Category in stages && Price in stages && Availability in stages
    ensures RunStages(products, stages, c) == Select(products, c)
  {
    RunStagesIsOneFilter(products, stages, c);
    forall p ensures PassesAllTest(stages, c)(p) == KeepTest(c)(p) {
      PassesAllIsKeeps(stages, p, c);
    }
    FilterExtensional(products, PassesAllTest(stages, c), KeepTest(c));
  }

  /**
   * The empty query occurs in every text, so the search test alone already
   * keeps every product when the query is empty; the guard that skips the
   * step changes nothing.
   */
  lemma EmptySearchExcludesNothing(p: Product)
    ensures SearchHit(p, "")
  {
    assert Lower("") == "";
    IncludesEmpty(Lower(p.name));
  }

  /**
   * The page's filter effect: start from the catalog and apply the search,
   * category, price and availability steps in that order, skipping a step
   * whose control is at its neutral value.
   */
  method FilterChain(c: Criteria) returns (filtered: seq<Product>)
    ensures filtered == Select(AllProducts, c)
  {
    filtered := AllProducts;
    ghost var before := filtered;
    if c.searchQuery != "" {
      var hit := p => SearchHit(p, c.searchQuery);
      filtered := Filter(filtered, hit);
      FilterExtensional(before, hit, StageTest(Search, c));
    } else {
      FilterKeepsAll(before, StageTest(Search, c));
    }
    assert filtered == RunStages(AllProducts, [Search], c);

    before := filtered;
    if c.activeCategory != "all" {
      var hit := p => CategoryHit(p, c.activeCategory);
      filtered := Filter(filtered, hit);
      FilterExtensional(before, hit, StageTest(Category, c));
    } else {
      FilterKeepsAll(before, StageTest(Category, c));
    }

    before := filtered;
    filtered := Filter(filtered, StageTest(Price, c));

    before := filtered;
    if c.availabilityFilter != None {
      var hit := (p: Product) => p.inStock == c.availabilityFilter.value;
      filtered := Filter(filtered, hit);
      FilterExtensional(before, hit, StageTest(Availability, c));
    } else {
      FilterKeepsAll(before, StageTest(Availability, c));
    }
    ghost var stages := [Search, Category, Price, Availability];
    assert filtered == RunStages(AllProducts, stages, c);
    StageOrderIrrelevant(AllProducts, stages, c);
  }

  /**
   * The "Filtered Results" badge condition: a query, a category other than
   * "all", a window other than [0, 1000] or an availability choice.
   */
  function IsFiltered(c: Criteria): (r: bool)
    ensures r <==> c != DefaultCriteria
  {
    c.searchQuery != "" || c.activeCategory != "all" || c.priceRange.min != 0
    || c.priceRange.max != 1000 || c.availabilityFilter != None
  }

  /** Every catalog price lies inside [0, 1000]. */
  lemma CatalogInFullRange()
    ensures forall p | p in AllProducts :: InPriceRange(p, FullRange)
  {
    CatalogPrices();
    assert InPriceRange(TranquilEveningBlend, FullRange) && InPriceRange(MorningClarityTea, FullRange);
    assert InPriceRange(StressReliefBlend, FullRange) && InPriceRange(DigestiveHarmony, FullRange);
    assert InPriceRange(ImmuneBoostTea, FullRange) && InPriceRange(DeepSleepBlend, FullRange);
  }

  /**
   * With every other control at its default, the chain keeps a catalog-priced
   * product exactly when the search test does.
   */
  lemma SearchAloneDecides(p: Product, query: string)
    requires InPriceRange(p, FullRange)
    ensures Keeps(p, DefaultCriteria.(searchQuery := query)) <==> MatchesSearch(p, query)
  {
  }

  /** The same for the category test. */
  lemma CategoryAloneDecides(p: Product, category: string)
    requires InPriceRange(p, FullRange)
    ensures Keeps(p, DefaultCriteria.(activeCategory := category)) <==> MatchesCategory(p, category)
  {
  }

  /** The same for the price window, for any product. */
  lemma PriceAloneDecides(p: Product, range: PriceRange)
    ensures Keeps(p, DefaultCriteria.(priceRange := range)) <==> InPriceRange(p, range)
  {
  }

  /** The same for the availability choice. */
  lemma AvailabilityAloneDecides(p: Product, availability: Option<bool>)
    requires InPriceRange(p, FullRange)
    ensures Keeps(p, DefaultCriteria.(availabilityFilter := availability)) <==> MatchesAvailability(p, availability)
  {
  }

  /** The default criteria select the whole catalog, in order. */
  lemma DefaultsSelectAll()
    ensures Select(AllProducts, DefaultCriteria) == AllProducts
  {
    CatalogInFullRange();
    FilterKeepsAll(AllProducts, KeepTest(DefaultCriteria));
  }

  /** The page's state. */
  class ProductsPage {
    var filteredProducts: seq<Product>
    var searchQuery: string
    var activeCategory: string
    var priceRange: PriceRange
    var availabilityFilter: Option<bool>
    var selectedProduct: Option<Product>
    var isModalOpen: bool
    var favorites: set<int>

    /** The criteria the filter effect reads. */
    function CurrentCriteria(): Criteria
      reads this
    {
      Criteria(searchQuery, activeCategory, priceRange, availabilityFilter)
    }

    /** The grid shows what the chain selects for the current criteria. */
    ghost predicate Valid()
      reads this
    {
      filteredProducts == Select(AllProducts, CurrentCriteria())
    }

    /** Whether the "Filtered Results" badge is shown. */
    function ShowsFilteredBadge(): (r: bool)
      reads this
      ensures r <==> CurrentCriteria() != DefaultCriteria
    {
      IsFiltered(CurrentCriteria())
    }

    constructor()
      ensures Valid() && CurrentCriteria() == DefaultCriteria
      ensures filteredProducts == AllProducts
      ensures selectedProduct == None && !isModalOpen && favorites == {}
    {
      filteredProducts := AllProducts;
      searchQuery := "";
      activeCategory := "all";
      priceRange := FullRange;
      availabilityFilter := None;
      selectedProduct := None;
      isModalOpen := false;
      favorites := {};
      DefaultsSelectAll();
    }

    /** The filter effect, run whenever one of the criteria changes. */
    method RunFilterEffect()
      modifies this
      ensures Valid()
      ensures CurrentCriteria() == old(CurrentCriteria())
      ensures selectedProduct == old(selectedProduct) && isModalOpen == old(isModalOpen)
      ensures favorites == old(favorites)
    {
      filteredProducts := FilterChain(CurrentCriteria());
    }

    /** `setSearchQuery`, followed by the effect. */
    method SetSearchQuery(query: string)
      modifies this
      ensures Valid() && CurrentCriteria() == old(CurrentCriteria()).(searchQuery := query)
      ensures selectedProduct == old(selectedProduct) && isModalOpen == old(isModalOpen)
      ensures favorites == old(favorites)
    {
      searchQuery := query;
      RunFilterEffect();
    }

    /** `setActiveCategory`, followed by the effect. */
    method SetActiveCategory(category: string)
      modifies this
      ensures Valid() && CurrentCriteria() == old(CurrentCriteria()).(activeCategory := category)
      ensures selectedProduct == old(selectedProduct) && isModalOpen == old(isModalOpen)
      ensures favorites == old(favorites)
    {
      activeCategory := category;
      RunFilterEffect();
    }

    /** `setPriceRange`, followed by the effect. */
    method SetPriceRange(range: PriceRange)
      modifies this
      ensures Valid() && CurrentCriteria() == old(CurrentCriteria()).(priceRange := range)
      ensures selectedProduct == old(selectedProduct) && isModalOpen == old(isModalOpen)
      ensures favorites == old(favorites)
    {
      priceRange := range;
      RunFilterEffect();
    }

    /** `setAvailabilityFilter`, followed by the effect. */
    method SetAvailabilityFilter(availability: Option<bool>)
      modifies this
      ensures Valid() && CurrentCriteria() == old(CurrentCriteria()).(availabilityFilter := availability)
      ensures selectedProduct == old(selectedProduct) && isModalOpen == old(isModalOpen)
      ensures favorites == old(favorites)
    {
      availabilityFilter := availability;
      RunFilterEffect();
    }

    /**
     * The empty-state "Clear All Filters" button: the four criteria go back
     * to their defaults, so the grid shows the whole catalog and the badge
     * disappears.
     */
    method ClearFromEmptyState()
      modifies this
      ensures Valid() && CurrentCriteria() == DefaultCriteria
      ensures filteredProducts == AllProducts && !ShowsFilteredBadge()
      ensures selectedProduct == old(selectedProduct) && isModalOpen == old(isModalOpen)
      ensures favorites == old(favorites)
    {
      searchQuery := "";
      activeCategory := "all";
      priceRange := FullRange;
      availabilityFilter := None;
      RunFilterEffect();
      DefaultsSelectAll();
    }

    /** `handleToggleFavorite`: copy the set, delete or add the id, store the copy. */
    method ToggleFavorite(id: int)
      modifies this
      ensures favorites == Favorites.Toggle(old(favorites), id)
      ensures filteredProducts == old(filteredProducts) && CurrentCriteria() == old(CurrentCriteria())
      ensures selectedProduct == old(selectedProduct) && isModalOpen == old(isModalOpen)
    {
      var next := favorites;
      if id in next {
        next := next - {id};
      } else {
        next := next + {id};
      }
      favorites := next;
    }

    /** `handleProductView`: remember the product and open the modal. */
    method ViewProduct(p: Product)
      modifies this
      ensures selectedProduct == Some(p) && isModalOpen
      ensures filteredProducts == old(filteredProducts) && CurrentCriteria() == old(CurrentCriteria())
      ensures favorites == old(favorites)
    {
      selectedProduct := Some(p);
      isModalOpen := true;
    }

    /** `closeModal`: close the modal and forget the product. */
    method CloseModal()
      modifies this
      ensures selectedProduct == None && !isModalOpen
      ensures filteredProducts == old(filteredProducts) && CurrentCriteria() == old(CurrentCriteria())
      ensures favorites == old(favorites)
    {
      isModalOpen := false;
      selectedProduct := None;
    }
  }
}
