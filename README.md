# ZenBotanica storefront logic, modelled in Dafny

ZenBotanica is a herbal-tea storefront written as a React site. Most of it is presentation. The pieces with real logic are modelled here and verified:

- The products page's **filter chain** over a fixed six-tea catalog. It applies four steps:
  - a case-insensitive search over name, description, tags and ingredients;
  - a category test by two-way case-insensitive containment against the tags, which `"all"` switches off;
  - an inclusive price window on the price read from `"$DD.DD"`;
  - an optional in-stock match.

  The page also has the "Filtered Results" badge, the favourites toggle, the product modal selection and the empty-state "Clear All Filters" button.
- The **filter panel**. Its price presets and availability buttons act as toggles. It keeps its own copy of the selection and reports every change to the page.
- The **recommendation panel**:
  - it scores each product other than the current one as `rating*10 + min(reviews/10, 10) + 5*matchingTags`;
  - it sorts the scores descending with a stable sort and keeps the first four;
  - it also has a favourites toggle.
- The tea selection guide's **benefit selector**: a toggle list of benefit ids and an "any selected benefit" filter.
- The showcase's favourites toggle, per-card display rules and its `formatPrice` helper. The helper is defined but never called: the cards show the raw price text, such as "$24.99".
- Three **index rotators**, each with a bounded index: the hero slider, the quote rotator with its 300 ms fade, and the wellness-journey stepper.
- The app **loading hook**, with its "replace the message only when non-empty" rule.

Modules:

- `Optional`, `Text` and `Seqs` hold shared vocabulary: `toLowerCase`, `includes`, `replace("$", "")`, the price reader, and `filter` with its laws.
- `Catalog` declares the catalog once. The three components that carry a copy hold the same records.
- There is one module per component: `ProductsPage`, `ProductFilters`, `Recommendations`, `TeaSelectionGuide`, `Showcase`, `Hero`, `CalmingQuotes`, `WellnessJourney` and `AppLoading`.
- `Rotation` holds the shared `(i + 1) % n` and `(i - 1 + n) % n` arithmetic.
- `ProductsPageExamples` and `RecommendationsExamples` prove the concrete catalog results the pages rely on.

How state is modelled:

- Component state that the handlers update becomes a `class`. Its methods are proved against pure specification functions: `Select`, `Ranked`, `Toggled`, `PriceClick` and others.
- The recommendation sort is an in-place insertion sort on an `array`. It is proved equal to the functional `SortDesc`, and stability and permutation are proved about `SortDesc`.
- Scores are exact `real`s. Prices are whole cents (`nat`).

## Model

| member | source | states |
|---|---|---|
| Catalog.CatalogIds | app/products/page.tsx:31-134 | the catalog holds six products whose ids are 1..6 in order, all distinct |
| Catalog.SubsequenceDistinctIds | components/product-recommendations.tsx:101 | any order-preserving selection from a list with distinct ids has distinct ids |
| Catalog.DollarPriceCents | app/products/page.tsx:174 | a `"$DD.DD"` price with its `$` removed reads as exactly that many cents |
| Catalog.PriceCents | app/products/page.tsx:174 | a product's price with the first `$` removed, read as cents; `DollarPriceCents` and `CatalogPrices` prove its value on the catalog |
| Catalog.CatalogPrices | app/products/page.tsx:36-128 | the six catalog prices read as 2499, 2899, 3299, 2699, 2999 and 2799 cents |
| Text.NotIncludesByPair | app/products/page.tsx:154-157 | a case-insensitive `includes` fails when the text is too short or lacks two adjacent characters of the needle |
| Text.Lower | app/products/page.tsx:153 | `toLowerCase` on ASCII, defined character by character, used by every case-insensitive test; `NotIncludesByPair` and the catalog example lemmas are proved over it |
| Text.ParseCents | app/products/page.tsx:174 | `parseFloat` on "D+.DD" read as cents, anything else as `None` (NaN); `ParseCentsText` proves it reads back every written price |
| Text.ParseCentsText | app/products/page.tsx:174 | reading back a price written as "D+.DD" gives the same number of cents (price parsing is exact on that format) |
| Seqs.FilterMembers | app/products/page.tsx:153-180 | an element is in `filter`'s result iff it is in the input and passes the test |
| Seqs.FilterIsSubsequence | app/products/page.tsx:153-180 | `filter` keeps input order: its result is a subsequence of the input |
| Seqs.FilterTwice | app/products/page.tsx:149-183 | filtering by one test and then another equals one filter by their conjunction |
| Seqs.FilterCommutes | app/products/page.tsx:149-183 | two filters can be applied in either order |
| Seqs.FilterMonotone | components/tea-selection-guide.tsx:73 | a weaker test keeps a superset, in order |
| Seqs.FilterNoDuplicates | components/tea-selection-guide.tsx:66 | filtering never introduces a repetition |
| Favorites.Toggle | app/products/page.tsx:191-199 | the toggled id's membership flips; every other id keeps its membership |
| Favorites.ToggleTwice | app/products/page.tsx:191-199 | toggling the same id twice restores the set |
| Favorites.ToggleCommutes | app/products/page.tsx:191-199 | toggles of two ids commute |
| ProductsPage.InPriceRange | app/products/page.tsx:173-176 | the price step, inclusive at both ends, failing for a price that does not read (NaN); `PriceAloneDecides` and `PresetsOverlapAtEndpoints` prove what it admits |
| ProductsPage.Keeps | app/products/page.tsx:151-181 | the conjunction of the four steps, each skipped at its default; `PassesAllIsKeeps` and `StageOrderIrrelevant` prove it is what the chain computes in any order |
| ProductsPage.Select | app/products/page.tsx:148-184 | a product is selected iff it passes all four steps; the result is a subsequence of the input |
| ProductsPage.RunStagesIsOneFilter | app/products/page.tsx:149-183 | running the steps one after the other equals a single filter by their conjunction |
| ProductsPage.PassesAllIsKeeps | app/products/page.tsx:152-181 | passing the four steps in any listing is the page's keep condition |
| ProductsPage.StageOrderIrrelevant | app/products/page.tsx:152-181 | any ordering of the four steps yields the same list as the page's order |
| ProductsPage.EmptySearchExcludesNothing | app/products/page.tsx:152 | an empty query keeps every product |
| ProductsPage.FilterChain | app/products/page.tsx:148-184 | the effect's step-by-step reassignment of `filtered` computes `Select` over the catalog |
| ProductsPage.IsFiltered | app/products/page.tsx:283 | the badge condition holds iff some criterion differs from its default |
| ProductsPage.CatalogInFullRange | app/products/page.tsx:173-176 | every catalog price lies in `[0, 1000]` |
| ProductsPage.SearchAloneDecides | app/products/page.tsx:152-159 | for a product priced inside `[0, 1000]`, with the other criteria at their defaults, it is kept iff it matches the search |
| ProductsPage.CategoryAloneDecides | app/products/page.tsx:162-170 | for a product priced inside `[0, 1000]`, with the other criteria at their defaults, it is kept iff it matches the category |
| ProductsPage.PriceAloneDecides | app/products/page.tsx:173-176 | with the other criteria at their defaults, a product is kept iff its price is in the window |
| ProductsPage.AvailabilityAloneDecides | app/products/page.tsx:179-181 | for a product priced inside `[0, 1000]`, with the other criteria at their defaults, it is kept iff its `inStock` matches |
| ProductsPage.DefaultsSelectAll | app/products/page.tsx:462-467 | the default criteria select the whole catalog in order |
| ProductsPage.ProductsPage.ShowsFilteredBadge | app/products/page.tsx:283 | the badge shows iff the current criteria differ from the defaults |
| ProductsPage.ProductsPage.constructor | app/products/page.tsx:137-144 | the page starts with default criteria, the whole catalog, no modal and no favourites |
| ProductsPage.ProductsPage.RunFilterEffect | app/products/page.tsx:148-184 | the effect makes the grid equal to `Select` of the current criteria |
| ProductsPage.ProductsPage.SetSearchQuery | app/products/page.tsx:269 | the query changes, the effect reruns, and nothing else changes |
| ProductsPage.ProductsPage.SetActiveCategory | app/products/page.tsx:270 | the category changes, the effect reruns, and nothing else changes |
| ProductsPage.ProductsPage.SetPriceRange | app/products/page.tsx:271 | the window changes, the effect reruns, and nothing else changes |
| ProductsPage.ProductsPage.SetAvailabilityFilter | app/products/page.tsx:272 | the availability changes, the effect reruns, and nothing else changes |
| ProductsPage.ProductsPage.ClearFromEmptyState | app/products/page.tsx:462-467 | the page's criteria return to `""`/`"all"`/`[0,1000]`/`null`; the grid is the whole catalog and the badge is hidden |
| ProductsPage.ProductsPage.ToggleFavorite | app/products/page.tsx:191-199 | the favourites become `Toggle` of the old set; the grid and criteria are unchanged |
| ProductsPage.ProductsPage.ViewProduct | app/products/page.tsx:201-204 | the modal opens on the chosen product |
| ProductsPage.ProductsPage.CloseModal | app/products/page.tsx:206-209 | the modal closes and the selection is cleared |
| ProductsPageExamples.GingerSearchResult | app/products/page.tsx:152-159 | searching "ginger" yields exactly Digestive Harmony and Immune Boost Tea (ids 4 and 5) |
| ProductsPageExamples.SleepCategoryResult | app/products/page.tsx:162-170 | category "sleep" yields exactly ids 1 and 6 |
| ProductsPageExamples.ClarityCategoryResult | app/products/page.tsx:162-170 | category "clarity" matches no catalog tag: the grid is empty |
| ProductsPageExamples.DigestionIsNotDigestive | app/products/page.tsx:167 | neither "digestion" nor "digestive" contains the other, ignoring case |
| ProductsPageExamples.DigestiveCategoryResult | app/products/page.tsx:162-170 | category "digestive" matches no catalog tag: the grid is empty |
| ProductsPageExamples.UnderTwentyFiveResult | app/products/page.tsx:173-176 | the window `[0, 25]` keeps only id 1 ("$24.99") |
| ProductsPageExamples.OverFiftyResult | app/products/page.tsx:173-176 | the window `[50, 1000]` keeps nothing |
| ProductsPageExamples.OutOfStockResult | app/products/page.tsx:179-181 | availability `false` keeps only id 3 |
| ProductFilters.PriceClick | components/product-filters.tsx:50-58 | clicking the selected preset clears the selection, any other click selects the clicked preset, and the window reported to the page is the new selection or `[0,1000]` when none |
| ProductFilters.PriceClickTwice | components/product-filters.tsx:50-58 | from no selection, or from the clicked preset, two clicks on it restore the selection |
| ProductFilters.AvailabilityClick | components/product-filters.tsx:60-68 | clicking the active availability (or the `null` one) gives `null`; any other click selects the clicked value |
| ProductFilters.AvailabilityClickTwice | components/product-filters.tsx:60-68 | from `null`, two clicks on the same button give `null` |
| ProductFilters.PresetsAreNotFull | components/product-filters.tsx:27-32 | no preset window is `[0, 1000]` |
| ProductFilters.PresetsAreAdjacent | components/product-filters.tsx:27-32 | consecutive presets share their endpoints 25, 35 and 50 |
| ProductFilters.PresetsOverlapAtEndpoints | components/product-filters.tsx:28-31 | a product passes two presets iff they are consecutive and its price is exactly their shared endpoint |
| ProductFilters.DeadCategoryPills | components/product-filters.tsx:22-24 | the "clarity" and "digestive" pills empty the grid |
| ProductFilters.ProductFilterPanel.constructor | components/product-filters.tsx:42-44 | the panel starts closed with nothing selected |
| ProductFilters.ProductFilterPanel.ShowsClearButton | components/product-filters.tsx:187 | the panel's clear button shows only with the advanced block open, and when hidden there nothing is set: no preset, no availability, category "all", empty query |
| ProductFilters.ProductFilterPanel.ClearButtonMatchesBadge | components/product-filters.tsx:143-187 | with the advanced filters open and the page mirroring the panel, the panel's clear button shows iff the page's badge shows |
| ProductFilters.ProductFilterPanel.ToggleFiltersOpen | components/product-filters.tsx:134 | the advanced block's visibility flips; the selections are kept |
| ProductFilters.ProductFilterPanel.SearchChange | components/product-filters.tsx:87 | the typed text becomes the page's query |
| ProductFilters.ProductFilterPanel.ClearSearch | components/product-filters.tsx:90-92 | the page's query becomes `""` |
| ProductFilters.ProductFilterPanel.HandleCategoryClick | components/product-filters.tsx:46-48 | the pill's id becomes the page's category |
| ProductFilters.ProductFilterPanel.HandlePriceRangeClick | components/product-filters.tsx:50-58 | the selection and the reported window follow `PriceClick`; the page mirrors the panel afterwards if it did before |
| ProductFilters.ProductFilterPanel.HandleAvailabilityClick | components/product-filters.tsx:60-68 | the selection follows `AvailabilityClick` and the page receives the same value; the mirror is kept |
| ProductFilters.ProductFilterPanel.ClearAllFilters | components/product-filters.tsx:70-77 | both local selections are dropped; the page gets `[0,1000]`, `null`, `"all"`, `""` and shows the whole catalog; the clear button hides |
| ProductFilters.EmptyStateClearAsWritten | app/products/page.tsx:462-467 | after "Over $50" empties the grid, the page's clear leaves "Over $50" highlighted and the panel's clear button shown without the badge; a second "Over $50" click reports `[0, 1000]` |
| ProductFilters.EmptyStateClearCorrected | app/products/page.tsx:462-467 | with the clear routed through the panel, nothing stays highlighted and a second "Over $50" click applies `[50, 1000]` |
| ProductFilters.ProductsScreen.constructor | app/products/page.tsx:268-275 | page and panel start consistent, with default criteria |
| ProductFilters.ProductsScreen.ClearButtonIffBadge | components/product-filters.tsx:187 | on the combined screen with filters open, the panel's clear button shows iff the page's badge shows |
| ProductFilters.ProductsScreen.ToggleFilters | components/product-filters.tsx:134 | opening or closing the advanced block keeps both selections and the consistency of page and panel |
| ProductFilters.ProductsScreen.ClickPreset | components/product-filters.tsx:50-58 | a preset click follows `PriceClick`, changes only the page's window and the panel's preset, and keeps page and panel consistent; favourites and the modal are untouched |
| ProductFilters.ProductsScreen.ClickAvailability | components/product-filters.tsx:60-68 | an availability click follows `AvailabilityClick`, changes only the page's availability and the panel's choice, and keeps page and panel consistent; favourites and the modal are untouched |
| ProductFilters.ProductsScreen.ClickCategory | components/product-filters.tsx:46-48 | a category click changes only the page's category, keeps page and panel consistent, and leaves favourites and the modal untouched |
| ProductFilters.ProductsScreen.TypeSearch | components/product-filters.tsx:87 | typing changes only the page's query, keeps page and panel consistent, and leaves favourites and the modal untouched |
| ProductFilters.ProductsScreen.ClearFromEmptyState | app/products/page.tsx:462-467 | the corrected empty-state clear (see "## Findings"), routed through the panel's `clearAllFilters`: it resets both page and panel, hiding the badge and the clear button; favourites and the modal are untouched |
| Recommendations.ReviewTerm | components/product-recommendations.tsx:105 | `min(reviews/10, 10)` lies in `[0, 10]`, is 10 iff reviews ≥ 100, and is reviews/10 below that |
| Recommendations.ScoreAll | components/product-recommendations.tsx:104-119 | each product is paired with its `Score`, in order, one entry per candidate; what a score is bounded by is proved in `ScoreBounds` and `PreferencesMonotone` |
| Recommendations.Score | components/product-recommendations.tsx:105-116 | the relevance score, defined as written; `ScoreBounds` proves it lies between the base and the base plus 5 per tag, with no bonus for empty preferences, and `PreferencesMonotone` that more preferences never lower it |
| Recommendations.Insert | components/product-recommendations.tsx:123 | one stable insertion step, defined as written; `InsertPermutes`, `InsertSorted`, `InsertStable` and `InsertPlaces` prove it adds exactly one element, keeps descending order, keeps ties in order and places the element after the last one scoring at least as much |
| Recommendations.SortDesc | components/product-recommendations.tsx:123 | the stable descending sort, defined by repeated `Insert`; `SortDescPermutes`, `SortDescSorted` and `SortDescStable` prove it a permutation, non-increasing and stable |
| Recommendations.Ranked | components/product-recommendations.tsx:99-127 | what the panel shows: filter, score, sort, first four; `RankedBeatsLeftOut`, `RankedSorted`, `RankedFromCandidates` and `RankedLengthAndDistinct` prove what it contains |
| Recommendations.Top | components/product-recommendations.tsx:124 | `slice(0, n)` is the first `min(n, length)` elements |
| Recommendations.InsertPermutes | components/product-recommendations.tsx:123 | inserting adds exactly one element |
| Recommendations.SortDescPermutes | components/product-recommendations.tsx:123 | the sort is a permutation |
| Recommendations.InsertSorted | components/product-recommendations.tsx:123 | inserting into a descending list keeps it descending |
| Recommendations.SortDescSorted | components/product-recommendations.tsx:123 | the sort's output is non-increasing in score |
| Recommendations.InsertStable | components/product-recommendations.tsx:123 | inserting keeps the order of the equal-score elements and puts the new one last |
| Recommendations.SortDescStable | components/product-recommendations.tsx:123 | for every score, the elements with that score keep their input order |
| Recommendations.InsertDistinct | components/product-recommendations.tsx:123 | inserting a product with a new id keeps ids distinct |
| Recommendations.SortDescDistinct | components/product-recommendations.tsx:123 | sorting keeps ids distinct |
| Recommendations.RankedBeatsLeftOut | components/product-recommendations.tsx:122-124 | shown plus left-out is exactly the scored candidates, and every left-out score is ≤ every shown score |
| Recommendations.RankedSorted | components/product-recommendations.tsx:123 | the shown scores are non-increasing |
| Recommendations.RankedFromCandidates | components/product-recommendations.tsx:101-119 | every shown entry is a catalog product other than the current one, with its score |
| Recommendations.CurrentNeverRecommended | components/product-recommendations.tsx:101 | the current product's id never appears |
| Recommendations.CandidatesCount | components/product-recommendations.tsx:101 | five candidates when the current id is a catalog id, six otherwise |
| Recommendations.RankedLengthAndDistinct | components/product-recommendations.tsx:101-124 | exactly `min(4, candidates)` = 4 entries, no id twice |
| Recommendations.MatchingTagsExactly | components/product-recommendations.tsx:109-114 | a tag counts iff it matches some preference by two-way containment; each tag at most once, in order |
| Recommendations.ScoreBounds | components/product-recommendations.tsx:105-116 | the bonus lies between 0 and 5 per tag; empty preferences give no bonus; the base is within 10 of rating×10 |
| Recommendations.PreferencesMonotone | components/product-recommendations.tsx:108-116 | adding preferences never lowers a score |
| Recommendations.InsertPlaces | components/product-recommendations.tsx:123 | inserting into a sorted list puts the element after the last one whose score is at least its own |
| Recommendations.SortDescExtend | components/product-recommendations.tsx:123 | sorting one more element inserts it into the sorted prefix |
| Recommendations.InsertInPlace | components/product-recommendations.tsx:123 | the in-place pass turns the array prefix into `Insert` of the next element and leaves the rest alone |
| Recommendations.SortByScore | components/product-recommendations.tsx:123 | the in-place insertion sort leaves the array equal to `SortDesc` of its old contents |
| Recommendations.ScoreEach | components/product-recommendations.tsx:104-119 | the scoring loop fills a fresh array with `ScoreAll` |
| Recommendations.Recommend | components/product-recommendations.tsx:99-127 | the effect's filter, score, sort and slice compute `Ranked` |
| Recommendations.RecommendationPanel.constructor | components/product-recommendations.tsx:94-96 | the panel starts with its props, no recommendations and no favourites |
| Recommendations.RecommendationPanel.RunEffect | components/product-recommendations.tsx:99-127 | the effect sets the recommendations to `Ranked` of the props |
| Recommendations.RecommendationPanel.ToggleFavorite | components/product-recommendations.tsx:142-150 | the favourites become `Toggle` of the old set; the recommendations are unchanged |
| RecommendationsExamples.HomePageRanking | components/product-recommendations.tsx:99-127 | with no exclusion and no preferences the panel shows ids 2, 6, 1, 5; ids 1 and 5 tie at 58 and keep catalog order |
| RecommendationsExamples.ProductsPageRanking | components/product-recommendations.tsx:99-127 | with preferences "wellness" and "organic" the panel shows ids 5, 1, 4, 2 |
| RecommendationsExamples.PlainScoresSorted | components/product-recommendations.tsx:123 | the stable sort of the preference-free scores puts id 1 before id 5 |
| RecommendationsExamples.CatalogScores | components/product-recommendations.tsx:104-119 | the six catalog scores in order, for given preferences |
| TeaSelectionGuide.Toggled | components/tea-selection-guide.tsx:64-68 | the toggled id's membership flips, others keep theirs, and an absent id is appended at the end |
| TeaSelectionGuide.ToggledNoDuplicates | components/tea-selection-guide.tsx:65-66 | toggling keeps the selection free of duplicates |
| TeaSelectionGuide.ToggleAbsentTwice | components/tea-selection-guide.tsx:65-66 | toggling an absent id twice gives back exactly the original list |
| TeaSelectionGuide.TogglePresentTwice | components/tea-selection-guide.tsx:65-66 | toggling a present id twice moves it to the end |
| TeaSelectionGuide.FilteredTeas | components/tea-selection-guide.tsx:70-73 | an empty selection shows all teas; otherwise, in catalog order, exactly the teas sharing a benefit with it |
| TeaSelectionGuide.MoreBenefitsMoreTeas | components/tea-selection-guide.tsx:73 | for a non-empty selection, adding a benefit never hides a tea |
| TeaSelectionGuide.EveryBenefitCarried | components/tea-selection-guide.tsx:7-58 | each of the six benefit ids is carried by some tea |
| TeaSelectionGuide.NeverEmpty | components/tea-selection-guide.tsx:70-73 | a non-empty selection of benefit ids always shows a tea |
| TeaSelectionGuide.Guide.constructor | components/tea-selection-guide.tsx:62 | the guide starts with nothing selected, showing every tea |
| TeaSelectionGuide.Guide.ToggleBenefit | components/tea-selection-guide.tsx:64-68 | the selection becomes `Toggled`; from a reachable selection the "No teas match" message never shows |
| Showcase.FormatPrice | components/enhanced-product-showcase.tsx:129-131 | only the first `$` is removed, everything else kept in order |
| Showcase.FormatPriceUndoesDollar | components/enhanced-product-showcase.tsx:129-131 | formatting `"$" + s` gives `s` |
| Showcase.FormatPriceKeepsLaterDollars | components/enhanced-product-showcase.tsx:129-131 | a second `$` is kept |
| Showcase.FormatFirstPrice | components/enhanced-product-showcase.tsx:129-131 | `"$24.99"` formats to `"24.99"` |
| Showcase.CartCaption | components/enhanced-product-showcase.tsx:319-323 | the caption reads "Out of Stock" iff the button is disabled, and "Add to Cart" otherwise |
| Showcase.EveryCardShowsOriginalPrice | components/enhanced-product-showcase.tsx:302-304 | every catalog card strikes through an original price that differs from its price |
| Showcase.OnlyStressReliefDisabled | components/enhanced-product-showcase.tsx:319-323 | the cart button is disabled only for id 3 |
| Showcase.ProductShowcase.constructor | components/enhanced-product-showcase.tsx:114-116 | the showcase starts with nothing selected, hovered or favourited |
| Showcase.ProductShowcase.ToggleFavorite | components/enhanced-product-showcase.tsx:119-127 | the favourites become `Toggle` of the old set; nothing else changes |
| Showcase.ProductShowcase.ViewDetails | components/enhanced-product-showcase.tsx:311 | the eye button selects the card's product |
| Showcase.ProductShowcase.Hover | components/enhanced-product-showcase.tsx:192-193 | entering or leaving a card sets or clears the hovered id |
| Rotation.Next | components/hero.tsx:48 | the step forward stays in range and wraps from the last index to 0 |
| Rotation.Prev | components/hero.tsx:52 | the step back stays in range and wraps from 0 to the last index |
| Rotation.PrevAfterNext | components/hero.tsx:47-53 | back after forward is the identity |
| Rotation.NextAfterPrev | components/hero.tsx:47-53 | forward after back is the identity |
| Rotation.AdvanceCompose | components/hero.tsx:39-49 | `a` steps then `b` steps are `a + b` steps |
| Rotation.FullCycle | components/hero.tsx:48 | `n` steps forward return to the start |
| Hero.HeroSlider.TrackOffset | components/hero.tsx:146 | the track offset is 0, 100 or 200 percent |
| Hero.HeroSlider.ExactlyOneDot | components/hero.tsx:191-197 | exactly one dot is active, the current slide's |
| Hero.HeroSlider.constructor | components/hero.tsx:32-33 | the slider starts unmounted on slide 0 |
| Hero.HeroSlider.Mount | components/hero.tsx:35-37 | mounting keeps the slide |
| Hero.HeroSlider.Tick | components/hero.tsx:39-45 | the auto-advance is `nextSlide` once mounted and nothing before |
| Hero.HeroSlider.NextSlide | components/hero.tsx:47-49 | the right arrow steps forward, wrapping, and stays in range |
| Hero.HeroSlider.PrevSlide | components/hero.tsx:51-53 | the left arrow steps back, wrapping, and stays in range |
| Hero.HeroSlider.GoToSlide | components/hero.tsx:194 | a dot click shows its slide and makes its dot active |
| Hero.ThreeNextsReturn | components/hero.tsx:48 | three right-arrow presses return to the starting slide |
| CalmingQuotes.Apply | components/calming-quotes.tsx:44-65 | a fired advance stays in range; a fired request shows its quote |
| CalmingQuotes.SettleAppend | components/calming-quotes.tsx:44-65 | a newly scheduled completion takes effect after the ones already pending |
| CalmingQuotes.QuoteRotator.ExactlyOneIndicator | components/calming-quotes.tsx:119-127 | exactly one indicator is active, the shown quote's |
| CalmingQuotes.QuoteRotator.constructor | components/calming-quotes.tsx:40-42 | the rotator starts on quote 0, not fading, not paused |
| CalmingQuotes.QuoteRotator.Tick | components/calming-quotes.tsx:44-56 | while not paused a tick starts the fade and schedules an advance, so the eventual quote moves one forward; a paused rotator does not tick |
| CalmingQuotes.QuoteRotator.HandleQuoteChange | components/calming-quotes.tsx:58-65 | a request for the shown quote does nothing; any other starts the fade and makes the requested quote the eventual one |
| CalmingQuotes.QuoteRotator.Skip | components/calming-quotes.tsx:134 | skip requests `(currentQuote + 1) % 6`, wrapping from 5 to 0 |
| CalmingQuotes.QuoteRotator.TogglePause | components/calming-quotes.tsx:112 | the pause button flips `isPaused` and leaves scheduled completions alone |
| CalmingQuotes.QuoteRotator.Complete | components/calming-quotes.tsx:44-65 | the oldest completion shows its quote and ends the fade; the eventual quote is unchanged and the index stays in range |
| CalmingQuotes.RequestThenSettle | components/calming-quotes.tsx:58-65 | from a quiet state, a request followed by its completion shows the requested quote with the fade ended |
| WellnessJourney.ProgressWidth | components/wellness-journey.tsx:74 | the width is 25, 50, 75 or 100 percent, and 100 exactly on the last step |
| WellnessJourney.Journey.HighlightIsPrefix | components/wellness-journey.tsx:83-113 | the highlighted steps are exactly the first `activeStep + 1`; only the active step pulses |
| WellnessJourney.Journey.constructor | components/wellness-journey.tsx:38-39 | the stepper starts unmounted on step 0 |
| WellnessJourney.Journey.Mount | components/wellness-journey.tsx:41-43 | mounting keeps the step |
| WellnessJourney.Journey.Tick | components/wellness-journey.tsx:45-53 | once mounted the tick is `(prev + 1) % 4`; before mounting nothing happens |
| WellnessJourney.Journey.Hover | components/wellness-journey.tsx:85 | hovering step `i` makes it the active, pulsing step |
| AppLoading.MessageAfter | hooks/use-app-loading.ts:7-20 | the message after an operation, defined as written; `FalsyMessageKept` proves an omitted or empty argument never replaces the current one |
| AppLoading.SetLoading | hooks/use-app-loading.ts:17-20 | `setLoading`, defined as written; `SetLoadingTrueIsStart` and `SetLoadingFalseKeepsMessage` prove it agrees with `startLoading` on `true` and differs from `stopLoading` on `false` |
| AppLoading.StartLoading | hooks/use-app-loading.ts:7-10 | `startLoading`, defined as written; `FalsyMessageKept` proves an omitted or empty message keeps the current one |
| AppLoading.StopLoading | hooks/use-app-loading.ts:12-15 | the state returns to not loading with an empty message |
| AppLoading.SetLoadingTrueIsStart | hooks/use-app-loading.ts:7-20 | `setLoading(true, m)` equals `startLoading(m)` |
| AppLoading.SetLoadingFalseKeepsMessage | hooks/use-app-loading.ts:7-20 | after `startLoading("x")`, `setLoading(false)` stops loading but keeps "x", unlike `stopLoading` |
| AppLoading.FalsyMessageKept | hooks/use-app-loading.ts:7-20 | an omitted or empty message never replaces the current one |
| AppLoading.AppLoadingHook.constructor | hooks/use-app-loading.ts:4-5 | the hook starts not loading with an empty message |
| AppLoading.AppLoadingHook.Start | hooks/use-app-loading.ts:7-10 | the state becomes `StartLoading` of the old state |
| AppLoading.AppLoadingHook.Stop | hooks/use-app-loading.ts:12-15 | the state becomes `StopLoading` of the old state |
| AppLoading.AppLoadingHook.Set | hooks/use-app-loading.ts:17-20 | the state becomes `SetLoading` of the old state |

## Left out

- Rendering, styling, icons, images and animation classes are not modelled. Neither are the fade and stagger timers of the recommendation panel (components/product-recommendations.tsx:129-140) or the water-ripple decoration.
- Wall-clock time is not modelled. Each interval or timeout firing is a method call (`Tick`, `Complete`). React batching and effect re-triggering are collapsed: each page setter runs the filter effect immediately.
- Recommendations.Score: scores are exact reals, and binary64 rounding of `rating * 10` and `reviews / 10` is not modelled. The catalog's ranking relies on the tie between ids 1 and 5, where both scores are 58 exactly.
- ProductsPage.InPriceRange: `parseFloat` is modelled only on the catalog's "D+.DD" format, read exactly as cents. Any other text reads as NaN and is excluded.
- Text.Lower: only ASCII letters are case-folded. Unicode case mapping is not modelled.
- `handleAddToCart` only logs to the console and is not modelled. The same goes for the view-mode toggle of the page and the showcase, the modal's scroll locking, and the loading screen.
- ProductFilters.ProductsScreen: its `Valid()` keeps the panel's selections mirrored in the page, and that holds only because its `ClearFromEmptyState` is the corrected empty-state clear of "## Findings". The button as written (app/products/page.tsx:462-467) calls only the page's setters and breaks the mirror, as `EmptyStateClearAsWritten` shows; the screen therefore models the site with that correction applied.
- Showcase.FormatPrice: `formatPrice` (components/enhanced-product-showcase.tsx:129-131) is never called in the source; the card renders `product.price` unformatted (line 301). The helper is modelled on its own.
- ProductFilters.ProductFilterPanel.ShowsClearButton: in the source the panel's clear button sits inside the advanced-filters block (components/product-filters.tsx:143-187), so it is also hidden while that block is closed. The model follows the code. The statement "shown iff a preset, an availability, a category or a query is set" therefore holds only with the block open.
- TeaSelectionGuide.Guide.ToggleBenefit: the "never empty" guarantee is stated for selections reached through the benefit buttons, which only pass benefit ids.
- The recommendation panel's `return null` for an empty list (components/product-recommendations.tsx:152) is covered only indirectly. `RankedLengthAndDistinct` proves the list always has four entries.

## Findings

| source | as written | input that shows it | evidently intended | confidence | as-written member | corrected member |
|---|---|---|---|---|---|---|
| app/products/page.tsx:462-467 | the empty-state "Clear All Filters" resets only the page's criteria; the filter panel keeps its own `selectedPriceRange` and `availabilityFilter` (components/product-filters.tsx:43-44) | open the advanced filters, click "Over $50" (no catalog price reaches $50, so the grid empties), click the empty-state "Clear All Filters": "Over $50" stays highlighted and the panel's clear button stays while the badge is gone; clicking "Over $50" again deselects it and reports `[0, 1000]` instead of applying it | the empty-state button clears the panel's selections as well, as the panel's own `clearAllFilters` does | high, not executed | ProductFilters.EmptyStateClearAsWritten | ProductFilters.EmptyStateClearCorrected |
