/**
 * The catalogue page (src/components/ProductListingPage.tsx): free-text
 * search, facet filtering with the special "Sale" category, a stable sort
 * by the chosen key, and the filter selections the page keeps as state.
 */
module ProductListing {
  import opened Types
  import opened Text
  import opened Seqs

  /** The pseudo-category that selects discounted products. */
  const SALE := "Sale"
  /** The initial (and cleared) bounds of the price slider. */
  const DEFAULT_MIN_PRICE := 0
  const DEFAULT_MAX_PRICE := 40000

  datatype SortKey = Featured | Newest | PriceLow | PriceHigh | Rating

  // ---------------------------------------------------------------- search

  /** A product matches when its lower-cased name, description, category or brand contains the lower-cased query. */
  predicate MatchesQuery(p: Product, query: string)
    ensures query == "" ==> MatchesQuery(p, query)
    ensures Includes(Lower(p.brand), Lower(query)) ==> MatchesQuery(p, query)
  {
    IncludesEmpty(Lower(p.name));
    var q := Lower(query);
    Includes(Lower(p.name), q) || Includes(Lower(p.description), q)
    || Includes(Lower(p.category), q) || Includes(Lower(p.brand), q)
  }

  /** `searchFilteredProducts`: the whole list for an empty query, else the matching products. */
  function SearchFilter(products: seq<Product>, query: string): (r: seq<Product>)
    ensures query == "" ==> r == products
    ensures query != "" ==> forall p :: p in r <==> p in products && MatchesQuery(p, query)
    ensures |r| <= |products|
    ensures IsSubseq(r, products)
  {
    if query == "" then
      SubseqRefl(products);
      products
    else
      FilterIsSubseq(p => MatchesQuery(p, query), products);
      Filter(p => MatchesQuery(p, query), products)
  }

  /** Every product matches the empty query, so the empty-query shortcut agrees with plain filtering. */
  lemma SearchShortcutAgrees(products: seq<Product>, query: string)
    ensures SearchFilter(products, query) == Filter(p => MatchesQuery(p, query), products)
  {
    if query == "" {
      forall p | p in products ensures MatchesQuery(p, query) {
        IncludesEmpty(Lower(p.name));
      }
      FilterKeepsAll(p => MatchesQuery(p, query), products);
    }
  }

  // ---------------------------------------------------------------- facets

  /** The category test: "Sale" overrides every other selected category and asks for a truthy original price. */
  predicate CategoryOk(p: Product, categories: seq<string>)
    ensures categories == [] ==> CategoryOk(p, categories)
    ensures CategoryOk(p, categories) && SALE !in categories && categories != [] ==> p.category in categories
    ensures SALE in categories && CategoryOk(p, categories) ==> Truthy(p.originalPrice)
  {
    if SALE in categories then Truthy(p.originalPrice)
    else |categories| == 0 || p.category in categories
  }

  /** A product passes the facets when its category, its brand and its price all do. */
  predicate PassesFacets(p: Product, categories: seq<string>, brands: seq<string>, lo: int, hi: int)
    ensures PassesFacets(p, categories, brands, lo, hi) ==> lo <= hi
    ensures categories == [] && brands == [] ==> (PassesFacets(p, categories, brands, lo, hi) <==> lo <= p.price <= hi)
  {
    && CategoryOk(p, categories)
    && (|brands| == 0 || p.brand in brands)
    && lo <= p.price <= hi
  }

  /** `filteredProducts`: category, brand and inclusive price-range facets. */
  function FacetFilter(products: seq<Product>, categories: seq<string>, brands: seq<string>, lo: int, hi: int)
    : (r: seq<Product>)
    ensures forall p :: p in r ==> p in products && lo <= p.price <= hi
    ensures forall p :: p in r && |brands| > 0 ==> p.brand in brands
    ensures SALE in categories ==> forall p :: p in r ==> Truthy(p.originalPrice)
    ensures SALE !in categories && |categories| > 0 ==> forall p :: p in r ==> p.category in categories
    ensures forall p :: p in r <==> p in products && PassesFacets(p, categories, brands, lo, hi)
    ensures |r| <= |products|
  {
    Filter(p => PassesFacets(p, categories, brands, lo, hi), products)
  }

  /** With no category, no brand and a price range holding every price, the facets keep everything. */
  lemma FacetIdentity(products: seq<Product>, lo: int, hi: int)
    requires forall p :: p in products ==> lo <= p.price <= hi
    ensures FacetFilter(products, [], [], lo, hi) == products
  {
    FilterKeepsAll(p => PassesFacets(p, [], [], lo, hi), products);
  }

  /** Once "Sale" is selected, which other categories are selected makes no difference. */
  lemma SaleIgnoresOtherCategories(products: seq<Product>, cats1: seq<string>, cats2: seq<string>,
                                   brands: seq<string>, lo: int, hi: int)
    requires SALE in cats1 && SALE in cats2
    ensures FacetFilter(products, cats1, brands, lo, hi) == FacetFilter(products, cats2, brands, lo, hi)
  {
    var f1 := p => PassesFacets(p, cats1, brands, lo, hi);
    var f2 := p => PassesFacets(p, cats2, brands, lo, hi);
    FilterSameTest(f1, f2, products);
  }

  lemma {:induction false} FilterSameTest(f1: Product -> bool, f2: Product -> bool, s: seq<Product>)
    requires forall p :: f1(p) == f2(p)
    ensures Filter(f1, s) == Filter(f2, s)
    decreases |s|
  {
    if s != [] { FilterSameTest(f1, f2, s[1..]); }
  }

  /** The filtered list, before sorting, keeps the catalogue's order. */
  lemma FilteredIsSubseq(products: seq<Product>, query: string, categories: seq<string>,
                         brands: seq<string>, lo: int, hi: int)
    ensures IsSubseq(FacetFilter(SearchFilter(products, query), categories, brands, lo, hi), products)
  {
    var searched := SearchFilter(products, query);
    FilterIsSubseq(p => PassesFacets(p, categories, brands, lo, hi), searched);
    SubseqTrans(FacetFilter(searched, categories, brands, lo, hi), searched, products);
  }

  // ---------------------------------------------------------------- sort

  /**
   * The comparator of `sortedProducts` is `Rank(a) - Rank(b)`: price for
   * "price-low", minus price for "price-high", minus rating for "rating" and
   * the constant 0 for "featured" and "newest".
   */
  function Rank(key: SortKey, p: Product): real {
    match key
    case PriceLow => p.price as real
    case PriceHigh => -(p.price as real)
    case Rating => -p.rating
    case _ => 0.0
  }

  /** What the comparator orders by: ascending price, descending price, descending rating, or nothing. */
  lemma RankOrder(key: SortKey, a: Product, b: Product)
    ensures key == PriceLow ==> (Rank(key, a) <= Rank(key, b) <==> a.price <= b.price)
    ensures key == PriceHigh ==> (Rank(key, a) <= Rank(key, b) <==> a.price >= b.price)
    ensures key == Rating ==> (Rank(key, a) <= Rank(key, b) <==> a.rating >= b.rating)
    ensures key == Featured || key == Newest ==> Rank(key, a) == Rank(key, b)
  {
  }

  ghost predicate SortedBy(key: SortKey, s: seq<Product>) {
    forall i, j :: 0 <= i < j < |s| ==> Rank(key, s[i]) <= Rank(key, s[j])
  }

  /** Places `x` before the first element whose rank is not below its own. */
  function Insert(key: SortKey, x: Product, t: seq<Product>): (r: seq<Product>)
    ensures multiset(r) == multiset(t) + multiset{x}
    decreases |t|
  {
    if t == [] then [x]
    else if Rank(key, x) <= Rank(key, t[0]) then [x] + t
    else
      assert t == [t[0]] + t[1..];
      [t[0]] + Insert(key, x, t[1..])
  }

  /** Inserting into a sorted list keeps it sorted. */
  lemma {:induction false} InsertSorted(key: SortKey, x: Product, t: seq<Product>)
    requires SortedBy(key, t)
    ensures SortedBy(key, Insert(key, x, t))
    decreases |t|
  {
    if t != [] && Rank(key, x) > Rank(key, t[0]) {
      var rest := Insert(key, x, t[1..]);
      InsertSorted(key, x, t[1..]);
      forall y | y in rest ensures Rank(key, t[0]) <= Rank(key, y) {
        assert y in multiset(rest);
        assert y == x || y in t[1..];
      }
      ConsSorted(key, t[0], rest);
    }
  }

  /** A head ranked no higher than anything in a sorted tail gives a sorted list. */
  lemma ConsSorted(key: SortKey, h: Product, rest: seq<Product>)
    requires SortedBy(key, rest)
    requires forall y :: y in rest ==> Rank(key, h) <= Rank(key, y)
    ensures SortedBy(key, [h] + rest)
  {
    var r := [h] + rest;
    forall i, j | 0 <= i < j < |r| ensures Rank(key, r[i]) <= Rank(key, r[j]) {
      assert r[j] == rest[j - 1];
      if i > 0 {
        assert r[i] == rest[i - 1];
      }
    }
  }

  /** `[...filtered].sort(comparator)`: a stable sort, written as an insertion sort. */
  function Sort(key: SortKey, s: seq<Product>): (r: seq<Product>)
    ensures multiset(r) == multiset(s)
    ensures |r| == |s|
    ensures SortedBy(key, r)
    decreases |s|
  {
    if s == [] then []
    else
      assert s == [s[0]] + s[1..];
      InsertSorted(key, s[0], Sort(key, s[1..]));
      Insert(key, s[0], Sort(key, s[1..]))
  }

  /** "price-low" lists prices from low to high. */
  lemma PriceLowAscending(s: seq<Product>)
    ensures forall i, j :: 0 <= i < j < |s| ==> Sort(PriceLow, s)[i].price <= Sort(PriceLow, s)[j].price
  {
  }

  /** "price-high" lists prices from high to low. */
  lemma PriceHighDescending(s: seq<Product>)
    ensures forall i, j :: 0 <= i < j < |s| ==> Sort(PriceHigh, s)[i].price >= Sort(PriceHigh, s)[j].price
  {
  }

  /** "rating" lists ratings from high to low. */
  lemma RatingDescending(s: seq<Product>)
    ensures forall i, j :: 0 <= i < j < |s| ==> Sort(Rating, s)[i].rating >= Sort(Rating, s)[j].rating
  {
  }

  /** "featured" and "newest" compare every pair as equal, so the stable sort keeps the filtered order. */
  lemma {:induction false} UnrankedSortKeepsOrder(key: SortKey, s: seq<Product>)
    requires key == Featured || key == Newest
    ensures Sort(key, s) == s
    decreases |s|
  {
    if s != [] {
      var rest := s[1..];
      UnrankedSortKeepsOrder(key, rest);
      InsertUnranked(key, s[0], rest);
      assert s == [s[0]] + rest;
    }
  }

  lemma InsertUnranked(key: SortKey, x: Product, t: seq<Product>)
    requires key == Featured || key == Newest
    ensures Insert(key, x, t) == [x] + t
  {
    if t != [] {
      assert Rank(key, x) == Rank(key, t[0]);
    }
  }

  /** Products of one rank: the sort keeps them in the order they had (stability). */
  /** The test "has rank v". */
  function OfRank(key: SortKey, v: real): Product -> bool {
    p => Rank(key, p) == v
  }

  lemma {:induction false} SortStable(key: SortKey, s: seq<Product>, v: real)
    ensures Filter(OfRank(key, v), Sort(key, s)) == Filter(OfRank(key, v), s)
    decreases |s|
  {
    if s != [] {
      SortStable(key, s[1..], v);
      InsertStable(key, s[0], Sort(key, s[1..]), v);
    }
  }

  lemma {:induction false} InsertStable(key: SortKey, x: Product, t: seq<Product>, v: real)
    ensures Filter(OfRank(key, v), Insert(key, x, t))
         == (if Rank(key, x) == v then [x] else []) + Filter(OfRank(key, v), t)
    decreases |t|
  {
    var f := OfRank(key, v);
    assert f(x) == (Rank(key, x) == v);
    if t == [] {
    } else if Rank(key, x) <= Rank(key, t[0]) {
      FilterCons(f, x, t);
    } else {
      var rest := Insert(key, x, t[1..]);
      assert Insert(key, x, t) == [t[0]] + rest;
      assert t == [t[0]] + t[1..];
      InsertStable(key, x, t[1..], v);
      FilterSwap(f, t[0], x, rest, t[1..]);
    }
  }

  // ---------------------------------------------------------------- selections

  /** Checkbox toggle: remove every occurrence when present, append when absent. */
  function Toggle(xs: seq<string>, x: string): (r: seq<string>)
    ensures x in r <==> x !in xs
    ensures forall y :: y != x ==> (y in r <==> y in xs)
    ensures x !in xs ==> r == xs + [x]
  {
    if x in xs then Filter(y => y != x, xs) else xs + [x]
  }

  /** Toggling an absent value twice restores the selection. */
  lemma ToggleTwice(xs: seq<string>, x: string)
    requires x !in xs
    ensures Toggle(Toggle(xs, x), x) == xs
  {
    var f := y => y != x;
    FilterAppend(f, xs, [x]);
    FilterKeepsAll(f, xs);
  }

  /** Whether "Clear All Filters" is offered, as written: the price test compares the upper bound with 500. */
  predicate ClearShownAsWritten(categories: seq<string>, brands: seq<string>, lo: int, hi: int) {
    |categories| > 0 || |brands| > 0 || lo != 0 || hi != 500
  }

  /** As written, the button shows on the untouched page, where the filters keep every product in range. */
  lemma ClearShownWithoutFilters(products: seq<Product>)
    requires forall p :: p in products ==> DEFAULT_MIN_PRICE <= p.price <= DEFAULT_MAX_PRICE
    ensures ClearShownAsWritten([], [], DEFAULT_MIN_PRICE, DEFAULT_MAX_PRICE)
    ensures FacetFilter(products, [], [], DEFAULT_MIN_PRICE, DEFAULT_MAX_PRICE) == products
  {
    FacetIdentity(products, DEFAULT_MIN_PRICE, DEFAULT_MAX_PRICE);
  }

  /** Corrected: the button is offered exactly when some selection differs from the cleared state. */
  predicate ClearShown(categories: seq<string>, brands: seq<string>, lo: int, hi: int) {
    |categories| > 0 || |brands| > 0 || lo != DEFAULT_MIN_PRICE || hi != DEFAULT_MAX_PRICE
  }

  /** Corrected: when the button is hidden, the facets keep every product the slider can reach. */
  lemma ClearHiddenMeansUnfiltered(products: seq<Product>, categories: seq<string>, brands: seq<string>, lo: int, hi: int)
    requires !ClearShown(categories, brands, lo, hi)
    requires forall p :: p in products ==> DEFAULT_MIN_PRICE <= p.price <= DEFAULT_MAX_PRICE
    ensures FacetFilter(products, categories, brands, lo, hi) == products
  {
    FacetIdentity(products, lo, hi);
  }

  /** The filter state of one listing page. */
  class ListingFilters {
    var selectedCategories: seq<string>
    var selectedBrands: seq<string>
    var minPrice: int
    var maxPrice: int
    var sortBy: SortKey

    /** The page opens with the navigated category (when truthy), the full price range and "featured". */
    constructor (selectedCategory: Option<string>)
      ensures selectedCategories == if TruthyText(selectedCategory) then [selectedCategory.value] else []
      ensures selectedBrands == []
      ensures minPrice == DEFAULT_MIN_PRICE && maxPrice == DEFAULT_MAX_PRICE
      ensures sortBy == Featured
    {
      selectedCategories := if TruthyText(selectedCategory) then [selectedCategory.value] else [];
      selectedBrands := [];
      minPrice, maxPrice := DEFAULT_MIN_PRICE, DEFAULT_MAX_PRICE;
      sortBy := Featured;
    }

    /** A new truthy category from the navigation replaces the selection; a falsy one changes nothing. */
    method CategoryChanged(selectedCategory: Option<string>)
      modifies this
      ensures selectedCategories ==
        if TruthyText(selectedCategory) then [selectedCategory.value] else old(selectedCategories)
      ensures selectedBrands == old(selectedBrands) && sortBy == old(sortBy)
      ensures minPrice == old(minPrice) && maxPrice == old(maxPrice)
    {
      if TruthyText(selectedCategory) {
        selectedCategories := [selectedCategory.value];
      }
    }

    method ToggleCategory(category: string)
      modifies this
      ensures selectedCategories == Toggle(old(selectedCategories), category)
      ensures selectedBrands == old(selectedBrands) && sortBy == old(sortBy)
      ensures minPrice == old(minPrice) && maxPrice == old(maxPrice)
    {
      selectedCategories := Toggle(selectedCategories, category);
    }

    method ToggleBrand(brand: string)
      modifies this
      ensures selectedBrands == Toggle(old(selectedBrands), brand)
      ensures selectedCategories == old(selectedCategories) && sortBy == old(sortBy)
      ensures minPrice == old(minPrice) && maxPrice == old(maxPrice)
    {
      selectedBrands := Toggle(selectedBrands, brand);
    }

    method SetPriceRange(lo: int, hi: int)
      modifies this
      ensures minPrice == lo && maxPrice == hi
      ensures selectedCategories == old(selectedCategories) && selectedBrands == old(selectedBrands)
      ensures sortBy == old(sortBy)
    {
      minPrice, maxPrice := lo, hi;
    }

    method SetSortBy(key: SortKey)
      modifies this
      ensures sortBy == key
      ensures selectedCategories == old(selectedCategories) && selectedBrands == old(selectedBrands)
      ensures minPrice == old(minPrice) && maxPrice == old(maxPrice)
    {
      sortBy := key;
    }

    /** "Clear All Filters" empties both selections and resets the price range; the sort key stays. */
    method ClearFilters()
      modifies this
      ensures selectedCategories == [] && selectedBrands == []
      ensures minPrice == DEFAULT_MIN_PRICE && maxPrice == DEFAULT_MAX_PRICE
      ensures sortBy == old(sortBy)
      ensures ClearButtonShownAsWritten()
      ensures !ClearButtonShownCorrected()
    {
      selectedCategories, selectedBrands := [], [];
      minPrice, maxPrice := DEFAULT_MIN_PRICE, DEFAULT_MAX_PRICE;
    }

    /** The button as the page renders it: it shows whenever the upper bound is not 500. */
    predicate ClearButtonShownAsWritten()
      reads this
      ensures maxPrice != 500 ==> ClearButtonShownAsWritten()
    {
      ClearShownAsWritten(selectedCategories, selectedBrands, minPrice, maxPrice)
    }

    /** The button under the corrected test against the default range. */
    predicate ClearButtonShownCorrected()
      reads this
      ensures !ClearButtonShownCorrected() ==>
        selectedCategories == [] && selectedBrands == [] && minPrice == DEFAULT_MIN_PRICE && maxPrice == DEFAULT_MAX_PRICE
    {
      ClearShown(selectedCategories, selectedBrands, minPrice, maxPrice)
    }

    /** `sortedProducts`: search, then facets, then the stable sort. */
    function Shown(products: seq<Product>, searchQuery: string): (r: seq<Product>)
      reads this
      ensures forall p :: p in r <==>
        && p in products
        && (searchQuery == "" || MatchesQuery(p, searchQuery))
        && PassesFacets(p, selectedCategories, selectedBrands, minPrice, maxPrice)
      ensures SortedBy(sortBy, r)
    {
      var filtered := FacetFilter(SearchFilter(products, searchQuery),
                                  selectedCategories, selectedBrands, minPrice, maxPrice);
      var r := Sort(sortBy, filtered);
      assert forall p :: p in r <==> p in filtered by {
        forall p ensures p in r <==> p in filtered {
          assert p in r <==> p in multiset(r);
        }
      }
      r
    }

    /** "Showing X of Y": the shown products are drawn from the catalogue, so X never exceeds Y. */
    lemma ShownDrawnFromCatalogue(products: seq<Product>, searchQuery: string)
      ensures |Shown(products, searchQuery)| <= |products|
      ensures multiset(Shown(products, searchQuery)) <= multiset(products)
    {
      var filtered := FacetFilter(SearchFilter(products, searchQuery),
                                  selectedCategories, selectedBrands, minPrice, maxPrice);
      FilteredIsSubseq(products, searchQuery, selectedCategories, selectedBrands, minPrice, maxPrice);
      SubseqMultiset(filtered, products);
    }
  }

  lemma {:induction false} SubseqMultiset<T>(r: seq<T>, s: seq<T>)
    requires IsSubseq(r, s)
    ensures multiset(r) <= multiset(s) && |r| <= |s|
    decreases |s|
  {
    if r != [] {
      assert s == [s[0]] + s[1..];
      if r[0] == s[0] && IsSubseq(r[1..], s[1..]) {
        SubseqMultiset(r[1..], s[1..]);
        assert r == [r[0]] + r[1..];
      } else {
        SubseqMultiset(r, s[1..]);
      }
    }
  }
}
